/** Time-stretch stages (build_atempo_filter, personalized_video.py:80-93). The
    engine's tempo filter accepts factors in [0.5, 2.0] only, so a larger or smaller
    speed is split into a chain of stages whose product is the speed. A stage is a factor
    here; the filter text and the six-decimal rendering of the last factor are not part
    of this model. */
module Stretch {
  const MinStage: real := 0.5
  const MaxStage: real := 2.0

  /** The stages after the halving loop has run on `r`: one 2.0 per halving, then the
      doubling loop on what remains. */
  function HalveChain(r: real): seq<real>
    requires r > 0.0
    decreases r.Floor
  {
    if r > MaxStage then
      assert (r / 2.0).Floor < r.Floor;
      [MaxStage] + HalveChain(r / 2.0)
    else DoubleChain(r)
  }

  lemma HalfFloor(y: real)
    requires y > 2.0
    ensures (y / 2.0).Floor < y.Floor
  {
    assert (y / 2.0).Floor as real <= y / 2.0 < y - 1.0 < y.Floor as real;
  }

  lemma InverseAboveTwo(r: real)
    requires 0.0 < r < MinStage
    ensures 1.0 / r > 2.0
  {
    var y := 1.0 / r;
    assert y * r == 1.0;
  }

  /** The stages of the doubling loop on `r`: one 0.5 per doubling, then what remains. */
  function DoubleChain(r: real): seq<real>
    requires r > 0.0
    decreases (1.0 / r).Floor
  {
    if r < MinStage then
      assert (1.0 / (r / 0.5)) == (1.0 / r) / 2.0;
      InverseAboveTwo(r);
      HalfFloor(1.0 / r);
      [MinStage] + DoubleChain(r / 0.5)
    else [r]
  }

  /** The stages build_atempo_filter chains for `speed`. */
  function AtempoChain(speed: real): seq<real> {
    if speed <= 0.0 then [1.0] else HalveChain(speed)
  }

  /** build_atempo_filter's two loops (personalized_video.py:84-93). */
  method BuildAtempoStages(speed: real) returns (stages: seq<real>)
    ensures stages == AtempoChain(speed)
  {
    if speed <= 0.0 {
      return [1.0];
    }
    stages := [];
    var remaining := speed;
    while remaining > MaxStage
      invariant remaining > 0.0
      invariant stages + HalveChain(remaining) == HalveChain(speed)
      decreases remaining.Floor
    {
      assert (remaining / 2.0).Floor < remaining.Floor;
      assert HalveChain(remaining) == [MaxStage] + HalveChain(remaining / 2.0);
      stages := stages + [MaxStage];
      remaining := remaining / 2.0;
    }
    while remaining < MinStage
      invariant remaining > 0.0
      invariant stages + DoubleChain(remaining) == HalveChain(speed)
      decreases (1.0 / remaining).Floor
    {
      assert (1.0 / (remaining / 0.5)) == (1.0 / remaining) / 2.0;
      InverseAboveTwo(remaining);
      HalfFloor(1.0 / remaining);
      assert DoubleChain(remaining) == [MinStage] + DoubleChain(remaining / 0.5);
      stages := stages + [MinStage];
      remaining := remaining / 0.5;
    }
    stages := stages + [remaining];
  }

  function Product(s: seq<real>): real {
    if s == [] then 1.0 else s[0] * Product(s[1..])
  }

  predicate InRange(s: seq<real>) {
    forall i :: 0 <= i < |s| ==> MinStage <= s[i] <= MaxStage
  }

  /** All stages but the last are equal to `f`. */
  predicate LeadingAll(s: seq<real>, f: real) {
    forall i :: 0 <= i < |s| - 1 ==> s[i] == f
  }

  lemma {:induction false} DoubleChainProperties(r: real)
    requires 0.0 < r <= MaxStage
    ensures InRange(DoubleChain(r))
    ensures Product(DoubleChain(r)) == r
    ensures LeadingAll(DoubleChain(r), MinStage)
    ensures r >= MinStage ==> DoubleChain(r) == [r]
    decreases (1.0 / r).Floor
  {
    if r < MinStage {
      assert (1.0 / (r / 0.5)) == (1.0 / r) / 2.0;
      InverseAboveTwo(r);
      HalfFloor(1.0 / r);
      DoubleChainProperties(r / 0.5);
      var c := DoubleChain(r);
      assert c[1..] == DoubleChain(r / 0.5);
    }
  }

  lemma {:induction false} HalveChainProperties(r: real)
    requires r > 0.0
    ensures InRange(HalveChain(r))
    ensures Product(HalveChain(r)) == r
    ensures r > MaxStage ==> LeadingAll(HalveChain(r), MaxStage)
    ensures r <= MaxStage ==> HalveChain(r) == DoubleChain(r)
    decreases r.Floor
  {
    if r > MaxStage {
      assert (r / 2.0).Floor < r.Floor;
      HalveChainProperties(r / 2.0);
      var c := HalveChain(r);
      assert c[1..] == HalveChain(r / 2.0);
      if r / 2.0 <= MaxStage {
        DoubleChainProperties(r / 2.0);
      }
    } else {
      DoubleChainProperties(r);
    }
  }

  /** A non-positive speed gives the single neutral stage; otherwise every stage is one
      the filter accepts, the stages multiply to the speed, and only one of the two loops
      contributes (all stages but the last are 2.0, or all are 0.5). */
  lemma AtempoChainProperties(speed: real)
    ensures speed <= 0.0 ==> AtempoChain(speed) == [1.0]
    ensures speed > 0.0 ==> InRange(AtempoChain(speed)) && Product(AtempoChain(speed)) == speed
    ensures LeadingAll(AtempoChain(speed), MaxStage) || LeadingAll(AtempoChain(speed), MinStage)
  {
    if speed > 0.0 {
      HalveChainProperties(speed);
      if speed <= MaxStage {
        DoubleChainProperties(speed);
      }
    }
  }

  /** A speed the filter accepts as it is yields itself as the only stage. */
  lemma SingleStage(speed: real)
    requires MinStage <= speed <= MaxStage
    ensures AtempoChain(speed) == [speed]
  {
    DoubleChainProperties(speed);
  }

  /** The stages for 3.0 are 2.0 then 1.5; the stages for 0.2 are 0.5, 0.5, 0.8. */
  lemma AtempoExamples()
    ensures AtempoChain(3.0) == [2.0, 1.5]
    ensures AtempoChain(0.2) == [0.5, 0.5, 0.8]
  {
    assert HalveChain(1.5) == DoubleChain(1.5) == [1.5];
    assert DoubleChain(0.8) == [0.8];
    assert DoubleChain(0.4) == [0.5] + DoubleChain(0.8);
    assert DoubleChain(0.2) == [0.5] + DoubleChain(0.4);
  }
}
