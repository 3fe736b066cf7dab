/** The splice plans of build_personalized_video (personalized_video.py:688-1590): for
    each insertion tier, which pieces of the base audio, the name clip and silent gaps
    are concatenated, in which order, and how the result is muxed. The engine's answers
    (durations and `silencedetect` reports) are the inputs of a `Scene`. */
module Tiers {
  import opened Wrappers
  import opened Text
  import opened Reals
  import Silence
  import Stretch
  import NameCache

  // ---------------------------------------------------------------------------
  // Plans

  /** How the name clip is fitted into the plan: at its own pace, or stretched by a
      chain of atempo stages and cut to `duration` seconds. */
  datatype Fit = Natural | Stretched(stages: seq<real>, duration: real)

  /** What match_audio_loudness measures the name clip against: nothing (loudness
      matching is off), an excerpt of the base audio, or the whole kept base audio. */
  datatype Level = AsIs | Excerpt(start: real, duration: real) | WholeBase

  /** One concatenation input: `duration` seconds of base audio from `start`, the base
      audio from `start` to its end, the name clip, or a silent gap. */
  datatype Part =
    | Base(start: real, duration: real)
    | BaseFrom(start: real)
    | Name(fit: Fit, level: Level)
    | Gap(seconds: real)

  /** How the merged audio becomes the output: an MP3 of the audio alone, the base
      video with its audio replaced (cut to `cut` seconds when given), or the video
      delayed by a frozen first frame of `seconds`. */
  datatype Mux = Mp3 | CopyVideo(cut: Option<real>) | FreezeFirstFrame(seconds: real)

  datatype Plan = Plan(parts: seq<Part>, mux: Mux, lipSync: bool)

  /** The output file and, unless it is a dry run, the plan that produces it. */
  datatype Outcome = Outcome(file: string, plan: Option<Plan>)

  /** The options of build_personalized_video that shape a plan. */
  datatype Options = Options(
    mode: string, position: string, dryRun: bool,
    silenceDur: real, goldDetectDur: real, matchLoudness: bool,
    silverReplace: real, silverGap: real,
    diamondNatural: bool, diamondGap: real,
    platinum: bool, placeholders: string, platinumMinSilence: real, platinumMaxPlaceholder: real,
    goldMax: real, goldGuard: real, lipSync: string)

  /** What the engine reports about one recipient's run: the durations of the base video
      and of the name audio, a `silencedetect` run on the base video and on its
      extracted audio track for a given minimum silence, the duration probe of the
      extracted track, and the number parser. */
  datatype Scene = Scene(
    baseDuration: real, nameDuration: real,
    videoSilence: real -> Silence.Report, trackSilence: real -> Silence.Report,
    trackDuration: Result<real>, parse: Silence.Parser)

  /** A name slot shorter than this is widened; loudness excerpts are at least this long. */
  const MinSlot: real := 0.12
  /** The shortest fallback slot of the silver tier. */
  const SilverMinReplace: real := 0.2
  /** The length a too-short diamond slot is widened to. */
  const DiamondWiden: real := 0.35
  /** The shortest base excerpt the platinum tier cuts before a marker. */
  const MinBaseExcerpt: real := 0.01
  /** Gold slots of at most this length are refused. */
  const GoldTooShort: real := 0.05
  /** The margin the silver branch of the gold slot keeps before the end of the base. */
  const SilverEndMargin: real := 0.05

  const DefaultPlaceholder: string := "NAME1"

  /** The loudness reference of a name slot (personalized_video.py:855, :1023, :1165). */
  function SlotLevel(matchLoudness: bool, start: real, duration: real): Level {
    if matchLoudness then Excerpt(start, duration) else AsIs
  }

  /** The silent gap after the name, when it is positive. */
  function GapAfterName(seconds: real): seq<Part> {
    if seconds > 0.0 then [Gap(seconds)] else []
  }

  /** The number of name parts in a plan. */
  function NameCount(parts: seq<Part>): nat {
    if parts == [] then 0 else (if parts[0].Name? then 1 else 0) + NameCount(parts[1..])
  }

  lemma {:induction false} NameCountAppend(a: seq<Part>, b: seq<Part>)
    ensures NameCount(a + b) == NameCount(a) + NameCount(b)
  {
    if a == [] {
      assert a + b == b;
    } else {
      assert (a + b)[0] == a[0];
      assert (a + b)[1..] == a[1..] + b;
      NameCountAppend(a[1..], b);
    }
  }

  lemma NameCountSingle(p: Part)
    ensures NameCount([p]) == if p.Name? then 1 else 0
  {
    assert [p][1..] == [];
  }

  /** The length of a plan's audio, given the length of the base audio and of the name
      clip at its own pace. A piece of the base ends with the base: cut from past its
      end it is empty. */
  function PartLength(p: Part, base: real, name: real): real {
    match p
    case Base(a, d) => Max(0.0, Min(d, base - a))
    case BaseFrom(a) => Max(0.0, base - a)
    case Name(fit, _) => if fit.Stretched? then fit.duration else name
    case Gap(g) => g
  }

  function PlanLength(parts: seq<Part>, base: real, name: real): real {
    if parts == [] then 0.0 else PartLength(parts[0], base, name) + PlanLength(parts[1..], base, name)
  }

  // ---------------------------------------------------------------------------
  // Silver (personalized_video.py:788-926)

  /** The replaced slot: the first speech segment, widened to `replace` seconds
      (within the base) when shorter than 0.12 s, or the first `max(0.2, replace)`
      seconds when there is no segment (personalized_video.py:794-807). */
  function SilverSlot(seg: Option<Silence.Interval>, base: real, replace: real): Silence.Interval {
    match seg
    case None => Silence.Interval(0.0, Min(base, Max(SilverMinReplace, replace)))
    case Some(i) =>
      if i.end - i.start < MinSlot then Silence.Interval(i.start, Min(base, i.start + replace)) else i
  }

  /** The name at its own pace in place of the slot, then the optional gap, then the
      base audio after the slot; the audio before the slot is dropped
      (personalized_video.py:890-894). */
  function SilverParts(slot: Silence.Interval, o: Options): seq<Part> {
    [Name(Natural, SlotLevel(o.matchLoudness, slot.start, Max(MinSlot, slot.end - slot.start)))]
    + GapAfterName(o.silverGap) + [BaseFrom(slot.end)]
  }

  /** The silver plan for the detected first speech segment. */
  function Silver(o: Options, seg: Option<Silence.Interval>, base: real): Plan {
    Plan(SilverParts(SilverSlot(seg, base, o.silverReplace), o), Mp3, false)
  }

  lemma SilverSlotProperties(seg: Option<Silence.Interval>, base: real, replace: real)
    ensures seg.None? ==>
      SilverSlot(seg, base, replace).start == 0.0
      && SilverSlot(seg, base, replace).end <= base
      && (SilverSlot(seg, base, replace).end == base || SilverSlot(seg, base, replace).end >= SilverMinReplace)
    ensures seg.Some? && seg.value.end - seg.value.start >= MinSlot ==> SilverSlot(seg, base, replace) == seg.value
    ensures seg.Some? && seg.value.end - seg.value.start < MinSlot ==>
      SilverSlot(seg, base, replace).start == seg.value.start
      && SilverSlot(seg, base, replace).end == Min(base, seg.value.start + replace)
  {
  }

  /** A silver plan is an audio-only MP3 without lip sync: the name, a gap exactly when
      the gap option is positive, and the rest of the base after the slot. */
  lemma SilverPlanShape(o: Options, seg: Option<Silence.Interval>, base: real)
    ensures var p := Silver(o, seg, base);
      var slot := SilverSlot(seg, base, o.silverReplace);
      && p.mux == Mp3 && !p.lipSync
      && |p.parts| == (if o.silverGap > 0.0 then 3 else 2)
      && p.parts[0] == Name(Natural, SlotLevel(o.matchLoudness, slot.start, Max(MinSlot, slot.end - slot.start)))
      && (o.silverGap > 0.0 ==> p.parts[1] == Gap(o.silverGap))
      && p.parts[|p.parts| - 1] == BaseFrom(slot.end)
      && NameCount(p.parts) == 1
  {
    var slot := SilverSlot(seg, base, o.silverReplace);
    var name := [Name(Natural, SlotLevel(o.matchLoudness, slot.start, Max(MinSlot, slot.end - slot.start)))];
    assert NameCount(name) == 1 by { assert name[1..] == []; }
    assert NameCount([BaseFrom(slot.end)]) == 0 by { assert [BaseFrom(slot.end)][1..] == []; }
    assert NameCount(GapAfterName(o.silverGap)) == 0 by {
      if o.silverGap > 0.0 { assert GapAfterName(o.silverGap)[1..] == []; }
    }
    NameCountAppend(name, GapAfterName(o.silverGap));
    NameCountAppend(name + GapAfterName(o.silverGap), [BaseFrom(slot.end)]);
  }

  // ---------------------------------------------------------------------------
  // Platinum (personalized_video.py:929-1067)

  /** The stripped, nonempty items of a list. */
  function NonBlank(items: seq<string>): (r: seq<string>)
  {
    if items == [] then []
    else
      var rest := NonBlank(items[1..]);
      if Strip(items[0]) == [] then rest else [Strip(items[0])] + rest
  }

  /** The placeholder words: the stripped nonempty comma-separated items, or the one
      default word when there is none (personalized_video.py:930-932). */
  function Placeholders(spec: string): seq<string> {
    var items := NonBlank(Split(spec, ','));
    if items == [] then [DefaultPlaceholder] else items
  }

  /** `w` is one of the items, stripped, and is neither empty nor padded. */
  predicate ItemWord(w: string, items: seq<string>) {
    w != [] && Strip(w) == w && exists k :: 0 <= k < |items| && Strip(items[k]) == w
  }

  lemma {:induction false} NonBlankMeaning(items: seq<string>)
    ensures forall w :: w in NonBlank(items) ==> ItemWord(w, items)
    ensures NonBlank(items) == [] <==> forall k :: 0 <= k < |items| ==> Strip(items[k]) == []
  {
    if items != [] {
      NonBlankMeaning(items[1..]);
      StripIdempotent(items[0]);
      assert forall k :: 1 <= k < |items| ==> items[1..][k - 1] == items[k];
      forall w | w in NonBlank(items) ensures ItemWord(w, items) {
        if w != Strip(items[0]) {
          assert ItemWord(w, items[1..]);
          var k :| 0 <= k < |items[1..]| && Strip(items[1..][k]) == w;
          assert Strip(items[k + 1]) == w;
        }
      }
    }
  }

  /** The number of items that are not blank once stripped. */
  function NonBlankCount(items: seq<string>): nat {
    if items == [] then 0 else (if Strip(items[0]) == [] then 0 else 1) + NonBlankCount(items[1..])
  }

  /** Every nonblank item is kept, stripped, and there are as many kept words as
      nonblank items, repeats included. */
  lemma {:induction false} NonBlankKeepsAll(items: seq<string>)
    ensures |NonBlank(items)| == NonBlankCount(items)
    ensures forall k :: 0 <= k < |items| && Strip(items[k]) != [] ==> Strip(items[k]) in NonBlank(items)
  {
    if items != [] {
      NonBlankKeepsAll(items[1..]);
      assert forall k :: 1 <= k < |items| ==> items[1..][k - 1] == items[k];
    }
  }

  /** There is at least one placeholder; the default word stands in exactly when every
      item is blank, and otherwise the placeholders are the nonempty stripped comma items,
      one per nonblank item. */
  lemma PlaceholdersProperties(spec: string)
    ensures |Placeholders(spec)| >= 1
    ensures (forall k :: 0 <= k < |Split(spec, ',')| ==> Strip(Split(spec, ',')[k]) == [])
            ==> Placeholders(spec) == [DefaultPlaceholder]
    ensures (exists k :: 0 <= k < |Split(spec, ',')| && Strip(Split(spec, ',')[k]) != [])
            ==> && (forall w :: w in Placeholders(spec) ==> ItemWord(w, Split(spec, ',')))
                && (forall k :: 0 <= k < |Split(spec, ',')| && Strip(Split(spec, ',')[k]) != []
                      ==> Strip(Split(spec, ',')[k]) in Placeholders(spec))
                && |Placeholders(spec)| == NonBlankCount(Split(spec, ','))
  {
    NonBlankMeaning(Split(spec, ','));
    NonBlankKeepsAll(Split(spec, ','));
  }

  /** The list "A,,B" has the two placeholders A and B. */
  lemma PlaceholdersExample()
    ensures Placeholders("A,,B") == ["A", "B"]
  {
    SplitExample();
    var items := ["A", "", "B"];
    assert Strip("A") == "A" by { TrimNothing("A", IsSpace); }
    assert Strip("B") == "B" by { TrimNothing("B", IsSpace); }
    assert Strip("") == "";
    assert items[1..][1..] == ["B"];
    assert NonBlank(["B"]) == ["B"];
    assert NonBlank(items[1..]) == ["B"];
  }

  lemma SplitExample()
    ensures Split("A,,B", ',') == ["A", "", "B"]
  {
    SplitNoSeparator("B", ',');
    SplitAtSeparator("", "B", ',');
    SplitAtSeparator("", ",B", ',');
    SplitAtSeparator("A", ",B", ',');
    assert "" + [','] + "B" == ",B";
    assert "" + [','] + ",B" == ",,B";
    assert "A" + [','] + ",B" == "A,,B";
  }

  /** A list of blanks has the default placeholder. */
  lemma BlankPlaceholdersExample()
    ensures Placeholders(" , ") == [DefaultPlaceholder]
  {
    assert Split(" , ", ',') == [" ", " "] by {
      SplitNoSeparator(" ", ',');
      SplitAtSeparator(" ", " ", ',');
      assert " " + [','] + " " == " , ";
    }
    assert Strip(" ") == "" by {
      assert IsSpace(' ');
      assert TrimLeft(" ", IsSpace) == TrimLeft(" "[1..], IsSpace);
    }
  }

  /** The segments no longer than `max`, in order (personalized_video.py:939-943). */
  function Markers(segments: seq<Silence.Interval>, max: real): (r: seq<Silence.Interval>)
  {
    if segments == [] then []
    else
      var rest := Markers(segments[1..], max);
      if segments[0].end - segments[0].start <= max then [segments[0]] + rest else rest
  }

  /** The markers are exactly the short segments, and the selection keeps the order of
      the segments. */
  lemma MarkersMeaning(segments: seq<Silence.Interval>, max: real)
    ensures forall m :: m in Markers(segments, max) <==> m in segments && m.end - m.start <= max
    ensures Silence.InOrder(segments) ==> Silence.InOrder(Markers(segments, max))
  {
    MarkersMembers(segments, max);
    if Silence.InOrder(segments) {
      MarkersInOrder(segments, max);
    }
  }

  lemma {:induction false} MarkersMembers(segments: seq<Silence.Interval>, max: real)
    ensures forall m :: m in Markers(segments, max) <==> m in segments && m.end - m.start <= max
  {
    if segments != [] {
      MarkersMembers(segments[1..], max);
      assert forall m :: m in segments <==> m == segments[0] || m in segments[1..];
    }
  }

  lemma {:induction false} MarkersInOrder(segments: seq<Silence.Interval>, max: real)
    requires Silence.InOrder(segments)
    ensures Silence.InOrder(Markers(segments, max))
  {
    if segments != [] {
      var tail := segments[1..];
      assert Silence.InOrder(tail) by {
        forall i, j | 0 <= i < j < |tail| ensures tail[i].end <= tail[j].start {
          assert tail[i] == segments[i + 1] && tail[j] == segments[j + 1];
        }
      }
      MarkersInOrder(tail, max);
      var rest := Markers(tail, max);
      if segments[0].end - segments[0].start <= max {
        MarkersMembers(tail, max);
        EndsBeforeTail(segments);
        var r := [segments[0]] + rest;
        forall i, j | 0 <= i < j < |r| ensures r[i].end <= r[j].start {
          if i == 0 {
            assert r[j] in rest;
          } else {
            assert r[i] == rest[i - 1] && r[j] == rest[j - 1];
          }
        }
      }
    }
  }

  /** In ordered segments the first one ends before every later one starts. */
  lemma EndsBeforeTail(segments: seq<Silence.Interval>)
    requires segments != [] && Silence.InOrder(segments)
    ensures forall m :: m in segments[1..] ==> segments[0].end <= m.start
  {
    forall m | m in segments[1..] ensures segments[0].end <= m.start {
      var k :| 0 <= k < |segments[1..]| && segments[1..][k] == m;
      assert segments[k + 1] == m;
    }
  }

  /** Where the base audio resumes before marker `j`: at `cursor` before the first
      marker, at the end of the previous marker otherwise. */
  function ResumeAt(markers: seq<Silence.Interval>, cursor: real, j: nat): real
    requires j <= |markers|
  {
    if j == 0 then cursor else markers[j - 1].end
  }

  /** The base excerpt the platinum loop cuts before marker `j`. */
  predicate ExcerptBefore(markers: seq<Silence.Interval>, cursor: real, j: nat, p: Part)
    requires j < |markers|
  {
    var c := ResumeAt(markers, cursor, j);
    markers[j].start > c && p == Base(c, Max(MinBaseExcerpt, markers[j].start - c))
  }

  /** The pieces the loop emits for one marker. */
  function MarkerGroup(m: Silence.Interval, cursor: real, name: Part, gap: real): seq<Part> {
    (if m.start > cursor then [Base(cursor, Max(MinBaseExcerpt, m.start - cursor))] else [])
    + [name] + GapAfterName(gap)
  }

  /** The concatenation for markers from the cursor on: for each marker, the base audio
      from the cursor up to the marker when the marker starts after the cursor, then
      the name, then the optional gap; after the last marker, the rest of the base when
      any is left (personalized_video.py:1008-1047). */
  function PlatinumFrom(markers: seq<Silence.Interval>, cursor: real, name: Part, gap: real, base: real): seq<Part>
    decreases |markers|
  {
    if markers == [] then (if base > cursor then [BaseFrom(cursor)] else [])
    else MarkerGroup(markers[0], cursor, name, gap) + PlatinumFrom(markers[1..], markers[0].end, name, gap, base)
  }

  /** The concatenation loop with its cursor. */
  method PlatinumConcat(markers: seq<Silence.Interval>, name: Part, gap: real, base: real) returns (parts: seq<Part>)
    ensures parts == PlatinumFrom(markers, 0.0, name, gap, base)
  {
    parts := [];
    var cursor := 0.0;
    for i := 0 to |markers|
      invariant cursor == ResumeAt(markers, 0.0, i)
      invariant parts + PlatinumFrom(markers[i..], cursor, name, gap, base) == PlatinumFrom(markers, 0.0, name, gap, base)
    {
      var m := markers[i];
      PlatinumFromStep(markers, i, cursor, parts, name, gap, base);
      parts := EmitMarker(parts, m, cursor, name, gap);
      cursor := m.end;
    }
    assert markers[|markers|..] == [];
    if base > cursor {
      parts := parts + [BaseFrom(cursor)];
    }
  }

  /** From marker `i` on, the plan is marker `i`'s group, then the plan from the next
      marker with the cursor at the end of marker `i`; so emitting that group keeps the
      loop's account of the whole plan. */
  lemma PlatinumFromStep(markers: seq<Silence.Interval>, i: nat, cursor: real, parts: seq<Part>, name: Part, gap: real, base: real)
    requires i < |markers|
    requires parts + PlatinumFrom(markers[i..], cursor, name, gap, base) == PlatinumFrom(markers, 0.0, name, gap, base)
    ensures (parts + MarkerGroup(markers[i], cursor, name, gap)) + PlatinumFrom(markers[i + 1..], markers[i].end, name, gap, base)
            == PlatinumFrom(markers, 0.0, name, gap, base)
  {
    assert markers[i..][1..] == markers[i + 1..];
    var group := MarkerGroup(markers[i], cursor, name, gap);
    var rest := PlatinumFrom(markers[i + 1..], markers[i].end, name, gap, base);
    assert PlatinumFrom(markers[i..], cursor, name, gap, base) == group + rest;
    assert (parts + group) + rest == parts + (group + rest);
  }

  /** The loop body for one marker: the base excerpt before it when it starts after the
      cursor, the name, and the gap when it is positive. */
  method EmitMarker(parts: seq<Part>, m: Silence.Interval, cursor: real, name: Part, gap: real) returns (out: seq<Part>)
    ensures out == parts + MarkerGroup(m, cursor, name, gap)
  {
    out := parts;
    if m.start > cursor {
      out := out + [Base(cursor, Max(MinBaseExcerpt, m.start - cursor))];
    }
    out := out + [name];
    if gap > 0.0 {
      out := out + [Gap(gap)];
    }
  }

  /** A platinum plan names every marker once: the number of name parts is the number
      of markers. */
  lemma {:induction false} PlatinumNameCount(markers: seq<Silence.Interval>, cursor: real, name: Part, gap: real, base: real)
    requires name.Name?
    ensures NameCount(PlatinumFrom(markers, cursor, name, gap, base)) == |markers|
    decreases |markers|
  {
    if markers == [] {
      assert NameCount([BaseFrom(cursor)]) == 0 by { assert [BaseFrom(cursor)][1..] == []; }
    } else {
      var m := markers[0];
      var pre := if m.start > cursor then [Base(cursor, Max(MinBaseExcerpt, m.start - cursor))] else [];
      PlatinumNameCount(markers[1..], m.end, name, gap, base);
      assert NameCount(pre) == 0 by { if pre != [] { assert pre[1..] == []; } }
      assert NameCount([name]) == 1 by { assert [name][1..] == []; }
      assert NameCount(GapAfterName(gap)) == 0 by { if gap > 0.0 { assert GapAfterName(gap)[1..] == []; } }
      NameCountAppend(pre, [name]);
      NameCountAppend(pre + [name], GapAfterName(gap));
      NameCountAppend(MarkerGroup(m, cursor, name, gap), PlatinumFrom(markers[1..], m.end, name, gap, base));
    }
  }

  /** The excerpt before a marker of the rest is the excerpt before the next marker of
      the whole list. */
  lemma ExcerptBeforeShift(markers: seq<Silence.Interval>, cursor: real, j: nat, p: Part)
    requires 0 < |markers| && j < |markers| - 1
    requires ExcerptBefore(markers[1..], markers[0].end, j, p)
    ensures ExcerptBefore(markers, cursor, j + 1, p)
  {
    assert markers[1..][j] == markers[j + 1];
    if j > 0 {
      assert markers[1..][j - 1] == markers[j];
    }
  }

  /** Every base excerpt of a platinum plan runs from where the base resumes up to a
      marker that starts after it; the rest of the base, when present, runs from the end
      of the last marker and is the last part. */
  lemma {:induction false} PlatinumBaseParts(markers: seq<Silence.Interval>, cursor: real, name: Part, gap: real, base: real)
    requires name.Name?
    ensures forall p :: p in PlatinumFrom(markers, cursor, name, gap, base) && p.Base? ==>
      exists j :: 0 <= j < |markers| && ExcerptBefore(markers, cursor, j, p)
    ensures forall p :: p in PlatinumFrom(markers, cursor, name, gap, base) && p.BaseFrom? ==>
      p == BaseFrom(ResumeAt(markers, cursor, |markers|)) && base > ResumeAt(markers, cursor, |markers|)
    decreases |markers|
  {
    if markers != [] {
      var m := markers[0];
      var tail := markers[1..];
      PlatinumBaseParts(tail, m.end, name, gap, base);
      var group := MarkerGroup(m, cursor, name, gap);
      var rest := PlatinumFrom(tail, m.end, name, gap, base);
      assert forall p :: p in group && p.Base? ==> ExcerptBefore(markers, cursor, 0, p);
      assert forall p :: p in group ==> !p.BaseFrom?;
      forall p | p in rest && p.Base? ensures exists j :: 0 <= j < |markers| && ExcerptBefore(markers, cursor, j, p) {
        var j :| 0 <= j < |tail| && ExcerptBefore(tail, m.end, j, p);
        ExcerptBeforeShift(markers, cursor, j, p);
      }
      assert ResumeAt(tail, m.end, |tail|) == ResumeAt(markers, cursor, |markers|) by {
        if tail != [] {
          assert tail[|tail| - 1] == markers[|markers| - 1];
        }
      }
    }
  }

  /** The number of gap parts in a plan. */
  function GapCount(parts: seq<Part>): nat {
    if parts == [] then 0 else (if parts[0].Gap? then 1 else 0) + GapCount(parts[1..])
  }

  lemma {:induction false} GapCountAppend(a: seq<Part>, b: seq<Part>)
    ensures GapCount(a + b) == GapCount(a) + GapCount(b)
  {
    if a == [] {
      assert a + b == b;
    } else {
      assert (a + b)[0] == a[0];
      assert (a + b)[1..] == a[1..] + b;
      GapCountAppend(a[1..], b);
    }
  }

  /** Every name of a platinum plan is followed by a gap when the gap is positive, and
      there are no other gaps. */
  lemma {:induction false} PlatinumGapCount(markers: seq<Silence.Interval>, cursor: real, name: Part, gap: real, base: real)
    requires name.Name?
    ensures GapCount(PlatinumFrom(markers, cursor, name, gap, base)) == if gap > 0.0 then |markers| else 0
    decreases |markers|
  {
    if markers == [] {
      assert GapCount([BaseFrom(cursor)]) == 0 by { assert [BaseFrom(cursor)][1..] == []; }
    } else {
      var m := markers[0];
      var pre := if m.start > cursor then [Base(cursor, Max(MinBaseExcerpt, m.start - cursor))] else [];
      PlatinumGapCount(markers[1..], m.end, name, gap, base);
      assert GapCount(pre) == 0 by { if pre != [] { assert pre[1..] == []; } }
      assert GapCount([name]) == 0 by { assert [name][1..] == []; }
      assert GapCount(GapAfterName(gap)) == (if gap > 0.0 then 1 else 0) by {
        if gap > 0.0 { assert GapAfterName(gap)[1..] == []; }
      }
      GapCountAppend(pre, [name]);
      GapCountAppend(pre + [name], GapAfterName(gap));
      GapCountAppend(MarkerGroup(m, cursor, name, gap), PlatinumFrom(markers[1..], m.end, name, gap, base));
    }
  }

  /** When base audio is left after the last marker, the plan ends with it. */
  lemma {:induction false} PlatinumTail(markers: seq<Silence.Interval>, cursor: real, name: Part, gap: real, base: real)
    ensures var parts := PlatinumFrom(markers, cursor, name, gap, base);
      base > ResumeAt(markers, cursor, |markers|) ==>
        parts != [] && parts[|parts| - 1] == BaseFrom(ResumeAt(markers, cursor, |markers|))
    decreases |markers|
  {
    if markers != [] {
      var tail := markers[1..];
      PlatinumTail(tail, markers[0].end, name, gap, base);
      assert ResumeAt(tail, markers[0].end, |tail|) == ResumeAt(markers, cursor, |markers|) by {
        if tail != [] {
          assert tail[|tail| - 1] == markers[|markers| - 1];
        }
      }
      var group := MarkerGroup(markers[0], cursor, name, gap);
      var rest := PlatinumFrom(tail, markers[0].end, name, gap, base);
      if rest != [] {
        assert (group + rest)[|group + rest| - 1] == rest[|rest| - 1];
      }
    }
  }

  /** Every marker that starts after the point where the base resumes before it gets
      the base excerpt up to its start. */
  lemma {:induction false} PlatinumExcerpts(markers: seq<Silence.Interval>, cursor: real, name: Part, gap: real, base: real)
    ensures forall j :: 0 <= j < |markers| && markers[j].start > ResumeAt(markers, cursor, j) ==>
      Base(ResumeAt(markers, cursor, j), Max(MinBaseExcerpt, markers[j].start - ResumeAt(markers, cursor, j)))
        in PlatinumFrom(markers, cursor, name, gap, base)
    decreases |markers|
  {
    if markers != [] {
      var tail := markers[1..];
      var parts := PlatinumFrom(markers, cursor, name, gap, base);
      var group := MarkerGroup(markers[0], cursor, name, gap);
      var rest := PlatinumFrom(tail, markers[0].end, name, gap, base);
      assert parts == group + rest;
      PlatinumExcerpts(tail, markers[0].end, name, gap, base);
      forall j | 0 <= j < |markers| && markers[j].start > ResumeAt(markers, cursor, j)
        ensures Base(ResumeAt(markers, cursor, j), Max(MinBaseExcerpt, markers[j].start - ResumeAt(markers, cursor, j))) in parts
      {
        if j == 0 {
          assert group[0] == Base(cursor, Max(MinBaseExcerpt, markers[0].start - cursor));
        } else {
          assert tail[j - 1] == markers[j];
          assert ResumeAt(tail, markers[0].end, j - 1) == ResumeAt(markers, cursor, j) by {
            if j > 1 { assert tail[j - 2] == markers[j - 1]; }
          }
          var p := Base(ResumeAt(tail, markers[0].end, j - 1), Max(MinBaseExcerpt, tail[j - 1].start - ResumeAt(tail, markers[0].end, j - 1)));
          assert p in rest;
        }
      }
    }
  }

  const TooFewMarkers := "Platinum mode expected more placeholder segments than it detected"

  /** The non-silent segments of the extracted track (personalized_video.py:935-939). */
  function TrackSegments(o: Options, sc: Scene): Result<seq<Silence.Interval>> {
    Silence.NonsilentOf(sc.trackSilence(o.platinumMinSilence), sc.parse, sc.trackDuration, Silence.DefaultMinSegment)
  }

  /** The name part of a platinum plan, its loudness matched to the first marker. */
  function PlatinumName(o: Options, first: Silence.Interval): Part {
    Name(Natural, SlotLevel(o.matchLoudness, first.start, Max(MinSlot, first.end - first.start)))
  }

  /** The platinum plan for the detected segments: as many markers as placeholders,
      each replaced by the name, or an error when there are fewer markers
      (personalized_video.py:940-949). */
  function Platinum(o: Options, segments: seq<Silence.Interval>, base: real): Result<Plan> {
    var count := |Placeholders(o.placeholders)|;
    var markers := Markers(segments, o.platinumMaxPlaceholder);
    if |markers| < count || count == 0 then Err(Raised(TooFewMarkers))
    else
      var used := markers[..count];
      Ok(Plan(PlatinumFrom(used, 0.0, PlatinumName(o, used[0]), o.diamondGap, base), CopyVideo(None), false))
  }

  /** Platinum refuses segments with fewer markers than placeholders; otherwise the plan
      names exactly the first markers, one name per placeholder, cuts the base only
      between them and resumes it after the last one. */
  lemma PlatinumProperties(o: Options, segments: seq<Silence.Interval>, base: real)
    ensures var count := |Placeholders(o.placeholders)|;
      var markers := Markers(segments, o.platinumMaxPlaceholder);
      && (Platinum(o, segments, base).Err? <==> |markers| < count)
      && (Platinum(o, segments, base).Err? ==> Platinum(o, segments, base).error == Raised(TooFewMarkers))
      && (Platinum(o, segments, base).Ok? ==>
            var used := markers[..count];
            PlatinumShape(used, PlatinumName(o, used[0]), o.diamondGap, base, Platinum(o, segments, base).value.parts))
  {
    PlaceholdersProperties(o.placeholders);
    var count := |Placeholders(o.placeholders)|;
    var markers := Markers(segments, o.platinumMaxPlaceholder);
    if |markers| >= count {
      var used := markers[..count];
      var name := PlatinumName(o, used[0]);
      assert Platinum(o, segments, base).value.parts == PlatinumFrom(used, 0.0, name, o.diamondGap, base);
      PlatinumPlan(used, name, o.diamondGap, base);
    }
  }

  /** What a platinum plan built from the markers used looks like: one name per marker and
      nothing but that name, base excerpts only before markers, each marker that starts after
      the point where the base resumes gets its excerpt, one gap per marker when the gap is
      positive, and the base resumes after the last marker exactly when audio is left. */
  predicate PlatinumShape(used: seq<Silence.Interval>, name: Part, gap: real, base: real, parts: seq<Part>)
    requires used != []
  {
    var count := |used|;
    && NameCount(parts) == count
    && (forall p :: p in parts && p.Name? ==> p == name)
    && (forall p :: p in parts && p.Base? ==> exists j :: 0 <= j < count && ExcerptBefore(used, 0.0, j, p))
    && (forall p :: p in parts && p.BaseFrom? ==> p == BaseFrom(used[count - 1].end) && base > used[count - 1].end)
    && GapCount(parts) == (if gap > 0.0 then count else 0)
    && (base > used[count - 1].end ==> parts != [] && parts[|parts| - 1] == BaseFrom(used[count - 1].end))
    && (forall j :: 0 <= j < count && used[j].start > ResumeAt(used, 0.0, j) ==>
          Base(ResumeAt(used, 0.0, j), Max(MinBaseExcerpt, used[j].start - ResumeAt(used, 0.0, j))) in parts)
  }

  /** The platinum plan for the markers used, from the start of the base, has that shape. */
  lemma PlatinumPlan(used: seq<Silence.Interval>, name: Part, gap: real, base: real)
    requires used != [] && name.Name?
    ensures PlatinumShape(used, name, gap, base, PlatinumFrom(used, 0.0, name, gap, base))
  {
    PlatinumNameCount(used, 0.0, name, gap, base);
    PlatinumBaseParts(used, 0.0, name, gap, base);
    PlatinumOnlyName(used, 0.0, name, gap, base);
    PlatinumGapCount(used, 0.0, name, gap, base);
    PlatinumTail(used, 0.0, name, gap, base);
    PlatinumExcerpts(used, 0.0, name, gap, base);
  }

  /** The only name part of a platinum plan is the given one. */
  lemma {:induction false} PlatinumOnlyName(markers: seq<Silence.Interval>, cursor: real, name: Part, gap: real, base: real)
    ensures forall p :: p in PlatinumFrom(markers, cursor, name, gap, base) && p.Name? ==> p == name
    decreases |markers|
  {
    if markers != [] {
      PlatinumOnlyName(markers[1..], markers[0].end, name, gap, base);
    }
  }

  /** The markers are the segments no longer than the placeholder bound, in the order of
      the segments; with a well-formed report they are in order without overlapping. */
  lemma PlatinumMarkers(o: Options, sc: Scene)
    requires forall s :: s in Silence.PairSilences(sc.trackSilence(o.platinumMinSilence).lines, sc.parse).silences ==> s.start <= s.end
    ensures TrackSegments(o, sc).Ok? ==>
      var markers := Markers(TrackSegments(o, sc).value, o.platinumMaxPlaceholder);
      && Silence.InOrder(markers)
      && forall m :: m in markers <==> m in TrackSegments(o, sc).value && m.end - m.start <= o.platinumMaxPlaceholder
  {
    var report := sc.trackSilence(o.platinumMinSilence);
    Silence.NonsilentOfProperties(report, sc.parse, sc.trackDuration, Silence.DefaultMinSegment);
    if TrackSegments(o, sc).Ok? {
      MarkersMeaning(TrackSegments(o, sc).value, o.platinumMaxPlaceholder);
    }
  }

  // ---------------------------------------------------------------------------
  // Diamond natural (personalized_video.py:1112-1272)

  const NoSegmentDiamond := "Diamond natural mode requires a detectable first speech segment."

  /** The first speech segment, widened to 0.35 s (within the base) when shorter than
      0.12 s (personalized_video.py:1122-1124). */
  function DiamondSlot(seg: Silence.Interval, base: real): Silence.Interval {
    if seg.end - seg.start < MinSlot then Silence.Interval(seg.start, Min(base, seg.start + DiamondWiden)) else seg
  }

  /** The base before the slot, the name at its own pace, the optional gap, and the
      base after the slot (personalized_video.py:1214-1218). */
  function DiamondParts(slot: Silence.Interval, o: Options): seq<Part> {
    [Base(0.0, slot.start), Name(Natural, SlotLevel(o.matchLoudness, slot.start, Max(MinSlot, slot.end - slot.start)))]
    + GapAfterName(o.diamondGap) + [BaseFrom(slot.end)]
  }

  /** The diamond plan for the detected first speech segment. */
  function Diamond(o: Options, seg: Option<Silence.Interval>, base: real): Result<Plan> {
    if seg.None? then Err(Raised(NoSegmentDiamond))
    else Ok(Plan(DiamondParts(DiamondSlot(seg.value, base), o), CopyVideo(None), false))
  }

  /** Diamond refuses a base without a first speech segment; otherwise the plan keeps
      the base before the slot and resumes it after the slot, which is the detected
      segment or, when that is shorter than 0.12 s, the 0.35 s from its start. */
  lemma DiamondProperties(o: Options, seg: Option<Silence.Interval>, base: real)
    ensures Diamond(o, seg, base).Err? <==> seg.None?
    ensures seg.None? ==> Diamond(o, seg, base) == Err(Raised(NoSegmentDiamond))
    ensures seg.Some? ==>
      var p := Diamond(o, seg, base).value;
      var i := seg.value;
      var slot := DiamondSlot(i, base);
      && p.parts[0] == Base(0.0, i.start)
      && p.parts[|p.parts| - 1] == BaseFrom(slot.end)
      && (o.diamondGap > 0.0 <==> |p.parts| == 4)
      && slot.start == i.start
      && (i.end - i.start >= MinSlot ==> slot.end == i.end)
      && (i.end - i.start < MinSlot ==> slot.end == Min(base, i.start + DiamondWiden))
      && NameCount(p.parts) == 1
      && p.mux == CopyVideo(None)
  {
    if seg.Some? {
      var slot := DiamondSlot(seg.value, base);
      var name := Name(Natural, SlotLevel(o.matchLoudness, slot.start, Max(MinSlot, slot.end - slot.start)));
      var head := [Base(0.0, slot.start), name];
      NameCountSingle(Base(0.0, slot.start));
      NameCountSingle(name);
      NameCountSingle(BaseFrom(slot.end));
      NameCountAppend([Base(0.0, slot.start)], [name]);
      assert [Base(0.0, slot.start)] + [name] == head;
      assert NameCount(GapAfterName(o.diamondGap)) == 0 by {
        if o.diamondGap > 0.0 { assert GapAfterName(o.diamondGap)[1..] == []; }
      }
      NameCountAppend(head, GapAfterName(o.diamondGap));
      NameCountAppend(head + GapAfterName(o.diamondGap), [BaseFrom(slot.end)]);
    }
  }

  /** The diamond audio is not cut to the base length (its mux has no `-t`): it lasts
      the base before the slot, the name at its own pace, the gap, and the base after
      the slot, so it is longer than the base exactly when the name and gap outlast the
      slot. */
  lemma DiamondLength(slot: Silence.Interval, o: Options, base: real, nameDuration: real)
    ensures var gap := if o.diamondGap > 0.0 then o.diamondGap else 0.0;
      && PlanLength(DiamondParts(slot, o), base, nameDuration)
         == Max(0.0, Min(slot.start, base)) + nameDuration + gap + Max(0.0, base - slot.end)
      && (0.0 <= slot.start <= slot.end <= base ==>
            (PlanLength(DiamondParts(slot, o), base, nameDuration) > base
             <==> nameDuration + gap > slot.end - slot.start))
  {
    var parts := DiamondParts(slot, o);
    var tail := GapAfterName(o.diamondGap) + [BaseFrom(slot.end)];
    assert parts[1..][1..] == tail;
    var gap := if o.diamondGap > 0.0 then o.diamondGap else 0.0;
    if o.diamondGap > 0.0 {
      assert tail[1..] == [BaseFrom(slot.end)];
      assert PlanLength(tail[1..], base, nameDuration) == Max(0.0, base - slot.end);
    } else {
      assert tail == [BaseFrom(slot.end)];
    }
    assert PlanLength(tail, base, nameDuration) == gap + Max(0.0, base - slot.end);
    assert PlanLength(parts[1..], base, nameDuration) == nameDuration + PlanLength(tail, base, nameDuration);
  }

  // ---------------------------------------------------------------------------
  // Gold (personalized_video.py:1273-1454)

  const NoSegmentGold := "Gold mode requires a detectable first speech segment (generic name)."
  const TooShortGold := "Gold mode detected too-short generic-name segment."

  /** The gold slot exactly as personalized_video.py:1273-1302 computes it, including
      the branches for the silver tier and the too-short check. */
  function GoldSlotAsWritten(mode: string, seg: Option<Silence.Interval>, base: real, o: Options): Result<Silence.Interval> {
    var found :-
      if seg.Some? then Ok(seg.value)
      else if mode == "silver" then Ok(Silence.Interval(0.0, Min(base, Max(SilverMinReplace, o.silverReplace))))
      else Err(Raised(NoSegmentGold));
    var raw := Max(0.0, found.end - found.start);
    var widened :=
      if mode == "silver" then Min(Max(raw, o.silverReplace), Max(MinSlot, base - found.start - SilverEndMargin))
      else raw;
    var capped := if widened > o.goldMax then o.goldMax else widened;
    var target := Max(MinSlot, capped - Max(0.0, o.goldGuard));
    if target <= GoldTooShort then Err(Raised(TooShortGold))
    else Ok(Silence.Interval(found.start, found.start + target))
  }

  /** The gold slot length in one formula: the segment length capped at `goldMax`, less
      the guard, and at least 0.12 s. */
  function GoldTarget(seg: Silence.Interval, goldMax: real, guard: real): real {
    Max(MinSlot, Min(Max(0.0, seg.end - seg.start), goldMax) - Max(0.0, guard))
  }

  /** Gold is reached only with mode "gold", so the silver branches inside it never run
      and the too-short error is unreachable: the slot starts at the segment and is
      `GoldTarget` long, which is at least 0.12 s and at most the larger of 0.12 s and
      `goldMax` less the guard. */
  lemma GoldDeadBranches(seg: Option<Silence.Interval>, base: real, o: Options)
    ensures seg.None? ==> GoldSlotAsWritten("gold", seg, base, o) == Err(Raised(NoSegmentGold))
    ensures seg.Some? ==>
      var t := GoldTarget(seg.value, o.goldMax, o.goldGuard);
      && GoldSlotAsWritten("gold", seg, base, o) == Ok(Silence.Interval(seg.value.start, seg.value.start + t))
      && MinSlot <= t <= Max(MinSlot, o.goldMax - Max(0.0, o.goldGuard))
    ensures GoldSlotAsWritten("gold", seg, base, o) != Err(Raised(TooShortGold))
  {
  }

  /** The name clip stretched to the slot: speed is the clip length over the slot length
      (personalized_video.py:1325-1327). */
  function GoldFit(slot: Silence.Interval, nameDuration: real): Fit {
    var target := slot.end - slot.start;
    var speed := if target > 0.0 then nameDuration / target else 1.0;
    Stretched(Stretch.AtempoChain(speed), target)
  }

  /** The base before the slot, the stretched name, and the base after the slot
      (personalized_video.py:1371-1408). */
  function GoldParts(slot: Silence.Interval, o: Options, nameDuration: real): seq<Part> {
    [Base(0.0, slot.start),
     Name(GoldFit(slot, nameDuration), SlotLevel(o.matchLoudness, slot.start, slot.end - slot.start)),
     BaseFrom(slot.end)]
  }

  /** The gold plan for the detected first speech segment under a mode. */
  function Gold(mode: string, o: Options, seg: Option<Silence.Interval>, base: real, nameDuration: real): Result<Plan> {
    var slot :- GoldSlotAsWritten(mode, seg, base, o);
    Ok(Plan(GoldParts(slot, o, nameDuration), CopyVideo(Some(base)), false))
  }

  /** The stretched name fills its slot: every stage is within [0.5, 2.0], and for a
      clip of positive length the stages multiply to clip length over slot length. */
  lemma GoldFitFillsSlot(slot: Silence.Interval, nameDuration: real)
    requires slot.end - slot.start >= MinSlot
    ensures var f := GoldFit(slot, nameDuration);
      && f.duration == slot.end - slot.start
      && Stretch.InRange(f.stages)
      && (nameDuration > 0.0 ==> Stretch.Product(f.stages) * f.duration == nameDuration)
      && (nameDuration <= 0.0 ==> f.stages == [1.0])
  {
    var target := slot.end - slot.start;
    var speed := nameDuration / target;
    assert GoldFit(slot, nameDuration) == Stretched(Stretch.AtempoChain(speed), target);
    Stretch.AtempoChainProperties(speed);
    SpeedOfSlot(nameDuration, target);
  }

  /** Dividing by a positive slot length keeps the sign, and multiplying back undoes it. */
  lemma SpeedOfSlot(d: real, t: real)
    requires t > 0.0
    ensures (d / t) * t == d
    ensures d > 0.0 <==> d / t > 0.0
  {
  }

  /** A gold plan whose slot lies within the base keeps the timing of the base: its
      audio is exactly as long as the base audio. A slot running past the end of the
      base leaves the suffix empty, and the audio lasts until the end of the slot. */
  lemma GoldKeepsLength(slot: Silence.Interval, o: Options, base: real, nameDuration: real)
    ensures 0.0 <= slot.start <= slot.end <= base ==> PlanLength(GoldParts(slot, o, nameDuration), base, nameDuration) == base
    ensures 0.0 <= slot.start <= base <= slot.end ==> PlanLength(GoldParts(slot, o, nameDuration), base, nameDuration) == slot.end
  {
    var parts := GoldParts(slot, o, nameDuration);
    assert parts[1..][1..][1..] == [];
    assert PlanLength(parts[1..][1..], base, nameDuration) == Max(0.0, base - slot.end);
    assert PlanLength(parts[1..], base, nameDuration) == (slot.end - slot.start) + Max(0.0, base - slot.end);
  }

  /** Under mode "gold" the gold tier fails only without a segment; otherwise its plan
      is the three-part plan of the `GoldTarget` slot with the name stretched to fill
      the slot. For a segment starting within the base the audio lasts the base, or
      until the end of the slot when that runs past the base, so it is never shorter
      than the base and the `-t` cut of the mux makes the output exactly base-long. */
  lemma GoldProperties(o: Options, seg: Option<Silence.Interval>, base: real, nameDuration: real)
    ensures Gold("gold", o, seg, base, nameDuration).Err? <==> seg.None?
    ensures seg.Some? ==>
      var i := seg.value;
      var slot := Silence.Interval(i.start, i.start + GoldTarget(i, o.goldMax, o.goldGuard));
      var p := Gold("gold", o, seg, base, nameDuration).value;
      && p.parts == GoldParts(slot, o, nameDuration)
      && p.mux == CopyVideo(Some(base))
      && (0.0 <= i.start <= base ==> PlanLength(p.parts, base, nameDuration) == Max(base, slot.end))
      && (0.0 <= i.start <= base ==> Min(p.mux.cut.value, PlanLength(p.parts, base, nameDuration)) == base)
      && Stretch.InRange(GoldFit(slot, nameDuration).stages)
      && (nameDuration > 0.0 ==> Stretch.Product(GoldFit(slot, nameDuration).stages) * (slot.end - slot.start) == nameDuration)
  {
    GoldDeadBranches(seg, base, o);
    if seg.Some? {
      var i := seg.value;
      var t := GoldTarget(i, o.goldMax, o.goldGuard);
      var slot := Silence.Interval(i.start, i.start + t);
      assert GoldSlotAsWritten("gold", seg, base, o) == Ok(slot);
      assert Gold("gold", o, seg, base, nameDuration) == Ok(Plan(GoldParts(slot, o, nameDuration), CopyVideo(Some(base)), false));
      assert slot.end - slot.start == t >= MinSlot;
      GoldKeepsLength(slot, o, base, nameDuration);
      GoldFitFillsSlot(slot, nameDuration);
    }
  }

  /** A short segment at the end of the base: the 0.12 s slot runs 0.07 s past the base,
      the merged audio lasts 1.07 s, and the `-t` cut brings the output back to 1 s. */
  lemma GoldOverrunExample(o: Options, nameDuration: real)
    requires o.goldMax == 0.5 && o.goldGuard == 0.08
    ensures var p := Gold("gold", o, Some(Silence.Interval(0.95, 1.0)), 1.0, nameDuration).value;
      && PlanLength(p.parts, 1.0, nameDuration) == 1.07
      && Min(p.mux.cut.value, PlanLength(p.parts, 1.0, nameDuration)) == 1.0
  {
    var i := Silence.Interval(0.95, 1.0);
    assert GoldTarget(i, o.goldMax, o.goldGuard) == 0.12;
    GoldProperties(o, Some(i), 1.0, nameDuration);
  }

  // ---------------------------------------------------------------------------
  // Start/end concatenation (personalized_video.py:1454-1590)

  const UnsupportedMode := "Unsupported insert mode"
  const UnsupportedPosition := "Unsupported name position"

  /** How much of the base is kept before a name appended at the end: up to the last
      silence start, within the base, or the base less the name's length when there is
      none (personalized_video.py:1460-1465). */
  function KeepDuration(speechEnd: Option<real>, base: real, name: real): real {
    match speechEnd
    case None => Max(0.0, base - name)
    case Some(se) => Max(0.0, Min(base, se))
  }

  lemma KeepDurationProperties(speechEnd: Option<real>, base: real, name: real)
    ensures 0.0 <= KeepDuration(speechEnd, base, name)
    ensures base >= 0.0 && name >= 0.0 ==> KeepDuration(speechEnd, base, name) <= base
    ensures speechEnd.Some? && 0.0 <= speechEnd.value <= base ==> KeepDuration(speechEnd, base, name) == speechEnd.value
    ensures speechEnd.None? && name <= base ==> KeepDuration(speechEnd, base, name) == base - name
  {
  }

  /** The base and the name one after the other, as personalized_video.py:1454-1590
      writes it, including its silver branches: the trailing-silence detection runs
      only for the end position. */
  function Concat(mode: string, position: string, o: Options, sc: Scene): Result<Plan> {
    if mode != "silver" && mode != "gold" then Err(Exit(UnsupportedMode))
    else
      var level := if o.matchLoudness then WholeBase else AsIs;
      if position == "end" then
        var se :- Silence.SpeechEndOf(sc.videoSilence(o.silenceDur), sc.parse);
        var keep := KeepDuration(se, sc.baseDuration, sc.nameDuration);
        Ok(Plan([Base(0.0, keep), Name(Natural, level)],
                if mode == "silver" then Mp3 else CopyVideo(Some(sc.baseDuration)), false))
      else if position == "start" then
        Ok(Plan([Name(Natural, level), BaseFrom(0.0)],
                if mode == "silver" then Mp3 else FreezeFirstFrame(sc.nameDuration), false))
      else Err(Exit(UnsupportedPosition))
  }

  // ---------------------------------------------------------------------------
  // Lip sync (apply_lip_sync, personalized_video.py:33-77)

  const SyncApiMissing := "Lip sync provider 'sync_api' is not implemented yet."
  const UnsupportedLipSync := "Unsupported lip sync provider"

  /** Whether Wav2Lip runs over the output: not for `none`, an error for `sync_api` and
      for unknown providers. */
  function LipSyncStep(provider: string): Result<bool> {
    if provider == "none" then Ok(false)
    else if provider == "sync_api" then Err(Raised(SyncApiMissing))
    else if provider != "wav2lip" then Err(Raised(UnsupportedLipSync))
    else Ok(true)
  }

  /** A video plan followed by the lip-sync step. */
  function WithLipSync(plan: Result<Plan>, provider: string): Result<Plan> {
    var p :- plan;
    var sync :- LipSyncStep(provider);
    Ok(p.(lipSync := sync))
  }

  // ---------------------------------------------------------------------------
  // Dispatch

  /** The first speech segment of the base video (personalized_video.py:789-794,
      :1113-1117, :1273-1278). */
  function FirstSegment(o: Options, sc: Scene): Result<Option<Silence.Interval>> {
    Silence.FirstSpeechOf(sc.videoSilence(Min(o.silenceDur, o.goldDetectDur)), sc.parse)
  }

  /** The tier a mode and position select (personalized_video.py:788, :928-929, :1112,
      :1454-1477). */
  function TierPlan(mode: string, position: string, o: Options, sc: Scene): Result<Plan> {
    if mode == "silver" then
      var seg :- FirstSegment(o, sc);
      Ok(Silver(o, seg, sc.baseDuration))
    else if mode == "gold" && position == "start" then
      if o.platinum then
        var segments :- TrackSegments(o, sc);
        WithLipSync(Platinum(o, segments, sc.baseDuration), o.lipSync)
      else
        var seg :- FirstSegment(o, sc);
        if o.diamondNatural then WithLipSync(Diamond(o, seg, sc.baseDuration), o.lipSync)
        else WithLipSync(Gold(mode, o, seg, sc.baseDuration, sc.nameDuration), o.lipSync)
    else
      var p :- Concat(mode, position, o, sc);
      if p.mux == Mp3 then Ok(p) else WithLipSync(Ok(p), o.lipSync)
  }

  /** Making the name audio when no cached clip is given (personalized_video.py:753-770):
      the synthesis errors of the name cache. */
  function NameAudio(name: string, clip: Option<string>, s: NameCache.Settings, e: NameCache.Engine): Result<bool> {
    if clip.Some? then Ok(false)
    else
      match NameCache.Synthesis(s, e, e.render(name))
      case Some(x) => Err(x)
      case None => Ok(true)
  }

  /** build_personalized_video: the output name, then (unless it is a dry run) the name
      audio and the plan of the selected tier. Silver reads an `end` position as
      `start` (personalized_video.py:726-736). */
  function Build(name: string, o: Options, s: NameCache.Settings, e: NameCache.Engine, clip: Option<string>, sc: Scene): Result<Outcome> {
    var position := if o.mode == "silver" && o.position == "end" then "start" else o.position;
    var file := NameCache.SafeSlug(name) + (if o.mode == "silver" then ".mp3" else ".mp4");
    if o.dryRun then Ok(Outcome(file, None))
    else
      var _ :- NameAudio(name, clip, s, e);
      var plan :- TierPlan(o.mode, position, o, sc);
      Ok(Outcome(file, Some(plan)))
  }

  /** A dry run only names the output; silver outputs are MP3 and all others MP4; a
      missing clip under provider `none` ends the program before any plan. */
  lemma BuildOutputName(name: string, o: Options, s: NameCache.Settings, e: NameCache.Engine, clip: Option<string>, sc: Scene)
    ensures o.dryRun ==> Build(name, o, s, e, clip, sc).Ok? && Build(name, o, s, e, clip, sc).value.plan.None?
    ensures Build(name, o, s, e, clip, sc).Ok? ==>
      var f := Build(name, o, s, e, clip, sc).value.file;
      var slug := NameCache.SafeSlug(name);
      && f[..|slug|] == slug
      && (o.mode == "silver" <==> f[|slug|..] == ".mp3")
      && (o.mode != "silver" <==> f[|slug|..] == ".mp4")
    ensures !o.dryRun && clip.None? && s.provider == "none" ==>
      Build(name, o, s, e, clip, sc) == Err(Exit(NameCache.NoProvider))
  {
    var slug := NameCache.SafeSlug(name);
    var ext := if o.mode == "silver" then ".mp3" else ".mp4";
    assert (slug + ext)[..|slug|] == slug;
    assert (slug + ext)[|slug|..] == ext;
  }

  /** The dead branches of the start/end concatenation: in every plan built, the
      audio-only MP3 mux occurs exactly in the silver tier and without lip sync, and the
      frozen-first-frame mux of the start position never occurs, since gold with a start
      position takes the gold path. */
  lemma ConcatDeadBranches(mode: string, position: string, o: Options, sc: Scene)
    requires mode != "silver" ==> position == o.position
    requires mode == "silver" ==> position == "start" || position == o.position
    ensures TierPlan(mode, position, o, sc).Ok? ==>
      var p := TierPlan(mode, position, o, sc).value;
      && !p.mux.FreezeFirstFrame?
      && (p.mux == Mp3 <==> mode == "silver")
      && (p.mux == Mp3 ==> !p.lipSync)
  {
  }

  /** Which tier runs: silver for mode "silver"; for mode "gold" at the start, platinum,
      diamond natural or gold by the flags; any other mode, or mode "gold" at a position
      other than start and end, ends the program. */
  lemma TierRouting(o: Options, sc: Scene, position: string)
    ensures o.mode == "silver" ==>
      TierPlan(o.mode, position, o, sc) == (var seg :- FirstSegment(o, sc); Ok(Silver(o, seg, sc.baseDuration)))
    ensures o.mode == "gold" && position == "start" && o.platinum ==>
      TierPlan(o.mode, position, o, sc)
        == (var segments :- TrackSegments(o, sc); WithLipSync(Platinum(o, segments, sc.baseDuration), o.lipSync))
    ensures o.mode == "gold" && position == "start" && !o.platinum && o.diamondNatural ==>
      TierPlan(o.mode, position, o, sc)
        == (var seg :- FirstSegment(o, sc); WithLipSync(Diamond(o, seg, sc.baseDuration), o.lipSync))
    ensures o.mode == "gold" && position == "start" && !o.platinum && !o.diamondNatural ==>
      TierPlan(o.mode, position, o, sc)
        == (var seg :- FirstSegment(o, sc); WithLipSync(Gold("gold", o, seg, sc.baseDuration, sc.nameDuration), o.lipSync))
    ensures o.mode != "silver" && o.mode != "gold" ==> TierPlan(o.mode, position, o, sc) == Err(Exit(UnsupportedMode))
    ensures o.mode == "gold" && position != "start" && position != "end" ==>
      TierPlan(o.mode, position, o, sc) == Err(Exit(UnsupportedPosition))
  {
  }
}
