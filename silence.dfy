/** Interpretation of the engine's silence report (the `silencedetect` log lines):
    the events it contains, the trailing-silence start, the first speech segment, and
    the non-silent segments of a clip. */
module Silence {
  import opened Wrappers
  import opened Text
  import opened Reals

  const StartMarker: string := "silence_start:"
  const EndMarker: string := "silence_end:"

  /** Tolerance for "the report starts with a silence at time 0". */
  const StartEpsilon: real := 0.05
  /** Minimum distance between speech start and the silence that ends the speech. */
  const EndEpsilon: real := 0.02

  datatype Kind = SilenceStart | SilenceEnd
  datatype Event = Event(kind: Kind, ts: real)
  datatype Interval = Interval(start: real, end: real)

  /** Python's `float(text)`, seen from outside: the number, or None on `ValueError`. */
  type Parser = string -> Option<real>

  /** The number after `silence_start:` on a line. */
  function StartValue(line: string, parse: Parser): Option<real>
    requires Contains(line, StartMarker)
  {
    parse(Strip(SplitField1(line, StartMarker)))
  }

  /** The number after `silence_end:` on a line, cut at the first `|`. */
  function EndValue(line: string, parse: Parser): Option<real>
    requires Contains(line, EndMarker)
  {
    parse(Strip(Split(SplitField1(line, EndMarker), '|')[0]))
  }

  // ---------------------------------------------------------------------------
  // Events of a report (detect_first_speech_segment)

  /** The `silence_end:` event of a line, if its value parses. */
  function EndEvents(line: string, parse: Parser): seq<Event> {
    if Contains(line, EndMarker) && EndValue(line, parse).Some?
    then [Event(SilenceEnd, EndValue(line, parse).value)] else []
  }

  /** The events one line contributes.  A line whose `silence_start:` value does not
      parse contributes nothing, not even its `silence_end:` value (the `continue`). */
  function LineEvents(line: string, parse: Parser): seq<Event> {
    if Contains(line, StartMarker) then
      match StartValue(line, parse)
      case None => []
      case Some(v) => [Event(SilenceStart, v)] + EndEvents(line, parse)
    else EndEvents(line, parse)
  }

  /** The events of a whole report, in report order. */
  function EventsOf(lines: seq<string>, parse: Parser): seq<Event> {
    if lines == [] then []
    else EventsOf(lines[..|lines| - 1], parse) + LineEvents(lines[|lines| - 1], parse)
  }

  /** The `silence_end:` half of the loop body at personalized_video.py:230-235. */
  method EndEventsOf(line: string, parse: Parser) returns (found: seq<Event>)
    ensures found == EndEvents(line, parse)
  {
    found := [];
    if Contains(line, EndMarker) {
      var v := EndValue(line, parse);
      if v.Some? {
        found := [Event(SilenceEnd, v.value)];
      }
    }
  }

  /** The body of the loop at personalized_video.py:223-235, for one line. */
  method LineEventsOf(line: string, parse: Parser) returns (found: seq<Event>)
    ensures found == LineEvents(line, parse)
  {
    found := [];
    if Contains(line, StartMarker) {
      var v := StartValue(line, parse);
      if v.None? {
        return;
      }
      found := [Event(SilenceStart, v.value)];
    }
    var ends := EndEventsOf(line, parse);
    found := found + ends;
  }

  /** The loop at personalized_video.py:222-235. */
  method ParseEvents(lines: seq<string>, parse: Parser) returns (events: seq<Event>)
    ensures events == EventsOf(lines, parse)
  {
    events := [];
    for i := 0 to |lines|
      invariant events == EventsOf(lines[..i], parse)
    {
      assert lines[..i + 1][..i] == lines[..i];
      var found := LineEventsOf(lines[i], parse);
      events := events + found;
    }
    assert lines[..|lines|] == lines;
  }

  // ---------------------------------------------------------------------------
  // Trailing silence (detect_speech_end)

  /** The value of the last `silence_start:` line whose value parses. */
  function LastStartOf(lines: seq<string>, parse: Parser): Option<real> {
    if lines == [] then None
    else
      var last := lines[|lines| - 1];
      if Contains(last, StartMarker) && StartValue(last, parse).Some?
      then StartValue(last, parse)
      else LastStartOf(lines[..|lines| - 1], parse)
  }

  /** The timestamp of the last silence-start event of an event list. */
  function LastStartTs(events: seq<Event>): Option<real> {
    if events == [] then None
    else if events[|events| - 1].kind == SilenceStart then Some(events[|events| - 1].ts)
    else LastStartTs(events[..|events| - 1])
  }

  /** LastStartTs finds nothing exactly when the events hold no silence start. */
  lemma {:induction false} LastStartTsNone(events: seq<Event>)
    ensures LastStartTs(events).None? <==> forall i :: 0 <= i < |events| ==> events[i].kind != SilenceStart
  {
    if events != [] && events[|events| - 1].kind != SilenceStart {
      var init := events[..|events| - 1];
      LastStartTsNone(init);
      assert forall i :: 0 <= i < |init| ==> init[i] == events[i];
    }
  }

  /** What LastStartTs finds is a silence start that no other silence start follows. */
  lemma {:induction false} LastStartTsIsLast(events: seq<Event>)
    requires LastStartTs(events).Some?
    ensures exists i :: 0 <= i < |events| && events[i] == Event(SilenceStart, LastStartTs(events).value)
                        && forall j :: i < j < |events| ==> events[j].kind != SilenceStart
  {
    var n := |events|;
    if events[n - 1].kind == SilenceStart {
      assert events[n - 1] == Event(SilenceStart, LastStartTs(events).value);
    } else {
      var init := events[..n - 1];
      assert LastStartTs(events) == LastStartTs(init);
      LastStartTsIsLast(init);
      var i :| 0 <= i < |init| && init[i] == Event(SilenceStart, LastStartTs(init).value)
               && forall j :: i < j < |init| ==> init[j].kind != SilenceStart;
      assert events[i] == init[i];
      assert forall j :: i < j < n - 1 ==> events[j] == init[j];
    }
  }

  /** The loop at personalized_video.py:191-199. */
  method DetectSpeechEnd(lines: seq<string>, parse: Parser) returns (r: Option<real>)
    ensures r == LastStartOf(lines, parse)
  {
    r := None;
    for i := 0 to |lines|
      invariant r == LastStartOf(lines[..i], parse)
    {
      assert lines[..i + 1][..i] == lines[..i];
      if Contains(lines[i], StartMarker) {
        var v := StartValue(lines[i], parse);
        if v.Some? {
          r := v;
        }
      }
    }
    assert lines[..|lines|] == lines;
  }

  /** The trailing-silence start is the last silence-start event of the same report. */
  lemma {:induction false} LastStartIsLastStartEvent(lines: seq<string>, parse: Parser)
    ensures LastStartOf(lines, parse) == LastStartTs(EventsOf(lines, parse))
  {
    if lines != [] {
      var init, last := lines[..|lines| - 1], lines[|lines| - 1];
      LastStartIsLastStartEvent(init, parse);
      LastStartTsOfLine(EventsOf(init, parse), last, parse);
    }
  }

  /** A line's events are its start event, if any, followed only by end events. */
  lemma LineEventsShape(line: string, parse: Parser)
    ensures var le := LineEvents(line, parse);
      if Contains(line, StartMarker) && StartValue(line, parse).Some?
      then le != [] && le[0] == Event(SilenceStart, StartValue(line, parse).value)
           && forall k :: 1 <= k < |le| ==> le[k].kind == SilenceEnd
      else forall k :: 0 <= k < |le| ==> le[k].kind == SilenceEnd
  {
  }

  lemma LastStartTsOfLine(pre: seq<Event>, line: string, parse: Parser)
    ensures LastStartTs(pre + LineEvents(line, parse))
            == if Contains(line, StartMarker) && StartValue(line, parse).Some?
               then StartValue(line, parse) else LastStartTs(pre)
  {
    var le := LineEvents(line, parse);
    LineEventsShape(line, parse);
    if Contains(line, StartMarker) && StartValue(line, parse).Some? {
      assert pre + le == (pre + [le[0]]) + le[1..];
      assert forall e :: e in le[1..] ==> e.kind == SilenceEnd;
      LastStartTsSkipsEnds(pre + [le[0]], le[1..]);
    } else {
      assert forall e :: e in le ==> e.kind == SilenceEnd;
      LastStartTsSkipsEnds(pre, le);
    }
  }

  lemma {:induction false} LastStartTsSkipsEnds(pre: seq<Event>, ends: seq<Event>)
    requires forall e :: e in ends ==> e.kind == SilenceEnd
    ensures LastStartTs(pre + ends) == LastStartTs(pre)
    decreases |ends|
  {
    if ends != [] {
      var all := pre + ends;
      assert all[|all| - 1] == ends[|ends| - 1];
      assert all[..|all| - 1] == pre + ends[..|ends| - 1];
      LastStartTsSkipsEnds(pre, ends[..|ends| - 1]);
    } else {
      assert pre + ends == pre;
    }
  }

  // ---------------------------------------------------------------------------
  // Stable sort by timestamp (`events.sort(key=lambda e: e[1])`)

  function InsertByTime(x: Event, s: seq<Event>): (r: seq<Event>)
    ensures multiset(r) == multiset(s) + multiset{x}
  {
    if s == [] || x.ts <= s[0].ts then [x] + s
    else
      assert s == [s[0]] + s[1..];
      [s[0]] + InsertByTime(x, s[1..])
  }

  /** Insertion sort; an element is placed before every element with an equal or later
      timestamp, which keeps equal timestamps in report order, as Python's sort does. */
  function SortByTime(s: seq<Event>): (r: seq<Event>)
    ensures multiset(r) == multiset(s)
  {
    if s == [] then []
    else
      assert s == [s[0]] + s[1..];
      InsertByTime(s[0], SortByTime(s[1..]))
  }

  predicate Ascending(s: seq<Event>) {
    forall i, j :: 0 <= i < j < |s| ==> s[i].ts <= s[j].ts
  }

  lemma {:induction false} InsertKeepsAscending(x: Event, s: seq<Event>)
    requires Ascending(s)
    ensures Ascending(InsertByTime(x, s))
    ensures forall e :: e in InsertByTime(x, s) ==> e == x || e in s
  {
    if s != [] && x.ts > s[0].ts {
      InsertKeepsAscending(x, s[1..]);
      var t := InsertByTime(x, s[1..]);
      assert forall e :: e in t ==> s[0].ts <= e.ts;
    }
  }

  lemma {:induction false} SortIsAscending(s: seq<Event>)
    ensures Ascending(SortByTime(s))
  {
    if s != [] {
      SortIsAscending(s[1..]);
      InsertKeepsAscending(s[0], SortByTime(s[1..]));
    }
  }

  /** The events with timestamp `t`, in order. */
  function AtTime(s: seq<Event>, t: real): seq<Event> {
    if s == [] then [] else (if s[0].ts == t then [s[0]] else []) + AtTime(s[1..], t)
  }

  lemma {:induction false} InsertAtTime(x: Event, s: seq<Event>, t: real)
    ensures AtTime(InsertByTime(x, s), t) == AtTime([x] + s, t)
    decreases |s|
  {
    if s != [] && x.ts > s[0].ts {
      var s1 := s[1..];
      assert s == [s[0]] + s1;
      var ax := if x.ts == t then [x] else [];
      var a0 := if s[0].ts == t then [s[0]] else [];
      assert ax == [] || a0 == [];
      InsertAtTime(x, s1, t);
      AtTimeCons(s[0], InsertByTime(x, s1), t);
      AtTimeCons(x, s1, t);
      AtTimeCons(s[0], s1, t);
      AtTimeCons(x, s, t);
      assert AtTime(InsertByTime(x, s), t) == a0 + (ax + AtTime(s1, t));
      assert AtTime([x] + s, t) == ax + (a0 + AtTime(s1, t));
    }
  }

  lemma AtTimeCons(e: Event, s: seq<Event>, t: real)
    ensures AtTime([e] + s, t) == (if e.ts == t then [e] else []) + AtTime(s, t)
  {
    assert ([e] + s)[1..] == s;
  }

  /** Stability: for every timestamp, the events carrying it keep their report order. */
  lemma {:induction false} SortIsStable(s: seq<Event>, t: real)
    ensures AtTime(SortByTime(s), t) == AtTime(s, t)
  {
    if s != [] {
      SortIsStable(s[1..], t);
      InsertAtTime(s[0], SortByTime(s[1..]), t);
    }
  }

  // ---------------------------------------------------------------------------
  // First speech segment (detect_first_speech_segment)

  /** Which events a search looks for: any silence end, or a silence start later than `t`. */
  datatype Wanted = AnyEvent | AnyEnd | StartAfter(t: real)

  predicate Wants(w: Wanted, e: Event) {
    match w
    case AnyEvent => true
    case AnyEnd => e.kind == SilenceEnd
    case StartAfter(t) => e.kind == SilenceStart && e.ts > t
  }

  /** The timestamp of the first wanted event of `s`, in sequence order. */
  function FirstTs(s: seq<Event>, w: Wanted): (r: Option<real>)
    ensures r.Some? ==> exists i :: 0 <= i < |s| && Wants(w, s[i]) && s[i].ts == r.value
                                    && forall j :: 0 <= j < i ==> !Wants(w, s[j])
    ensures r.None? ==> forall e :: e in s ==> !Wants(w, e)
  {
    if s == [] then None
    else if Wants(w, s[0]) then Some(s[0].ts)
    else
      var r := FirstTs(s[1..], w);
      assert forall i :: 0 <= i < |s| - 1 ==> s[1..][i] == s[i + 1];
      r
  }

  /** Speech starts at the first silence end when the earliest event is a silence start
      within `StartEpsilon` of 0, and at 0 otherwise (also when no silence end follows). */
  function SpeechStart(sorted: seq<Event>): real
    requires sorted != []
  {
    if sorted[0].kind == SilenceStart && Abs(sorted[0].ts - 0.0) < StartEpsilon
    then FirstTs(sorted, AnyEnd).GetOr(0.0)
    else 0.0
  }

  /** The segment (speech start, speech end) found in time-sorted events. */
  function SegmentOfSorted(sorted: seq<Event>): Option<Interval>
    requires sorted != []
  {
    var start := SpeechStart(sorted);
    match FirstTs(sorted, StartAfter(start + EndEpsilon))
    case None => None
    case Some(end) => if end <= start then None else Some(Interval(start, end))
  }

  /** The segment of personalized_video.py:237-266, of the events of a report in
      report order. */
  function FirstSpeechSegment(events: seq<Event>): Option<Interval> {
    if events == [] then None else SegmentOfSorted(SortByTime(events))
  }

  /** The search loops of personalized_video.py:244-266 over the sorted events. */
  method FindFirstSpeechSegment(sorted: seq<Event>) returns (r: Option<Interval>)
    requires sorted != []
    ensures r == SegmentOfSorted(sorted)
  {
    var start := 0.0;
    if sorted[0].kind == SilenceStart && Abs(sorted[0].ts - 0.0) < StartEpsilon {
      var first := FirstWanted(sorted, AnyEnd);
      if first.Some? {
        start := first.value;
      }
    }
    var end := FirstWanted(sorted, StartAfter(start + EndEpsilon));
    if end.None? {
      return None;
    }
    if end.value <= start {
      return None;
    }
    return Some(Interval(start, end.value));
  }

  /** One search loop of personalized_video.py:244-262: the timestamp of the first
      wanted event, stopping at it. */
  method FirstWanted(s: seq<Event>, w: Wanted) returns (r: Option<real>)
    ensures r == FirstTs(s, w)
  {
    r := None;
    for i := 0 to |s|
      invariant r.None?
      invariant FirstTs(s, w) == FirstTs(s[i..], w)
    {
      assert s[i..][1..] == s[i + 1..];
      if Wants(w, s[i]) {
        r := Some(s[i].ts);
        break;
      }
    }
    if r.None? {
      assert s[|s|..] == [];
    }
  }

  /** detect_first_speech_segment on a report (personalized_video.py:222-266). */
  method DetectFirstSpeechSegment(lines: seq<string>, parse: Parser) returns (r: Option<Interval>)
    ensures r == FirstSpeechSegment(EventsOf(lines, parse))
  {
    var events := ParseEvents(lines, parse);
    if events == [] {
      return None;
    }
    var sorted := SortByTime(events);
    r := FindFirstSpeechSegment(sorted);
  }

  // ---------------------------------------------------------------------------
  // A reference definition of the first speech segment, by least timestamps rather
  // than by sorting and searching

  /** The least timestamp among the wanted events of `s`. */
  function MinTs(s: seq<Event>, w: Wanted): (r: Option<real>)
    ensures r.Some? ==> exists i :: 0 <= i < |s| && Wants(w, s[i]) && s[i].ts == r.value
    ensures r.Some? ==> forall e :: e in s && Wants(w, e) ==> r.value <= e.ts
    ensures r.None? ==> forall e :: e in s ==> !Wants(w, e)
  {
    if s == [] then None
    else
      var rest := MinTs(s[1..], w);
      assert forall i :: 0 <= i < |s| - 1 ==> s[1..][i] == s[i + 1];
      assert forall e :: e in s ==> e == s[0] || e in s[1..];
      if !Wants(w, s[0]) then rest
      else match rest
        case None => Some(s[0].ts)
        case Some(v) => Some(Min(v, s[0].ts))
  }

  /** The earliest event of a report: the first reported one among those with the least
      timestamp. */
  function Earliest(events: seq<Event>): Event
    requires events != []
  {
    var m := MinTs(events, AnyEvent).value;
    AtTimeHasEvent(events, m);
    AtTime(events, m)[0]
  }

  /** The first speech segment by the rules of personalized_video.py:237-266 read
      declaratively: speech starts at the least silence-end timestamp when the earliest
      event is a silence start near 0 (at 0 otherwise), and ends at the least
      silence-start timestamp more than `EndEpsilon` after that. */
  function ReferenceSegment(events: seq<Event>): (r: Option<Interval>)
    ensures r.Some? ==> MinTs(events, StartAfter(r.value.start + EndEpsilon)) == Some(r.value.end)
  {
    if events == [] then None
    else
      var first := Earliest(events);
      var start :=
        if first.kind == SilenceStart && Abs(first.ts) < StartEpsilon
        then MinTs(events, AnyEnd).GetOr(0.0) else 0.0;
      match MinTs(events, StartAfter(start + EndEpsilon))
      case None => None
      case Some(end) => Some(Interval(start, end))
  }

  lemma {:induction false} AtTimeHasEvent(s: seq<Event>, t: real)
    requires exists i :: 0 <= i < |s| && s[i].ts == t
    ensures AtTime(s, t) != []
  {
    if s[0].ts != t {
      var i :| 0 <= i < |s| && s[i].ts == t;
      assert s[1..][i - 1] == s[i];
      AtTimeHasEvent(s[1..], t);
    }
  }

  lemma MinTsUnique(s: seq<Event>, w: Wanted, v: real)
    requires exists i :: 0 <= i < |s| && Wants(w, s[i]) && s[i].ts == v
    requires forall e :: e in s && Wants(w, e) ==> v <= e.ts
    ensures MinTs(s, w) == Some(v)
  {
    var i :| 0 <= i < |s| && Wants(w, s[i]) && s[i].ts == v;
    assert s[i] in s;
  }

  lemma FirstIsMin(s: seq<Event>, w: Wanted)
    requires Ascending(s)
    ensures FirstTs(s, w) == MinTs(s, w)
  {
    if FirstTs(s, w).Some? {
      var v := FirstTs(s, w).value;
      var i :| 0 <= i < |s| && Wants(w, s[i]) && s[i].ts == v
               && forall j :: 0 <= j < i ==> !Wants(w, s[j]);
      forall e | e in s && Wants(w, e) ensures v <= e.ts {
        var j :| 0 <= j < |s| && s[j] == e;
        assert !(j < i);
      }
      MinTsUnique(s, w, v);
    }
  }

  lemma MinTsPermutation(a: seq<Event>, b: seq<Event>, w: Wanted)
    requires multiset(a) == multiset(b)
    ensures MinTs(a, w) == MinTs(b, w)
  {
    assert forall e :: e in a <==> e in multiset(a);
    assert forall e :: e in b <==> e in multiset(b);
    if MinTs(a, w).Some? {
      var v := MinTs(a, w).value;
      var i :| 0 <= i < |a| && Wants(w, a[i]) && a[i].ts == v;
      assert a[i] in b;
      var j :| 0 <= j < |b| && b[j] == a[i];
      MinTsUnique(b, w, v);
    }
  }

  /** The head of the sorted events is the earliest event of the report. */
  lemma SortedHeadIsEarliest(events: seq<Event>)
    requires events != []
    ensures SortByTime(events) != [] && SortByTime(events)[0] == Earliest(events)
  {
    var sorted := SortByTime(events);
    assert multiset(sorted) == multiset(events);
    assert events[0] in multiset(sorted);
    SortIsAscending(events);
    FirstIsMin(sorted, AnyEvent);
    MinTsPermutation(sorted, events, AnyEvent);
    var m := MinTs(events, AnyEvent).value;
    assert sorted[0].ts == m;
    SortIsStable(events, m);
    assert AtTime(sorted, m)[0] == sorted[0];
  }

  /** detect_first_speech_segment agrees with the declarative reading of its rules; in
      particular its final `speech_end <= speech_start` check can never fire. */
  lemma FirstSpeechSegmentIsReference(events: seq<Event>)
    ensures FirstSpeechSegment(events) == ReferenceSegment(events)
  {
    if events != [] {
      var sorted := SortByTime(events);
      SpeechStartIsReference(events);
      var start := SpeechStart(sorted);
      SortIsAscending(events);
      FirstIsMin(sorted, StartAfter(start + EndEpsilon));
      MinTsPermutation(sorted, events, StartAfter(start + EndEpsilon));
      var first := Earliest(events);
      var refStart :=
        if first.kind == SilenceStart && Abs(first.ts) < StartEpsilon
        then MinTs(events, AnyEnd).GetOr(0.0) else 0.0;
      assert start == refStart;
      var found := FirstTs(sorted, StartAfter(start + EndEpsilon));
      assert found == MinTs(events, StartAfter(refStart + EndEpsilon));
      assert FirstSpeechSegment(events) == SegmentOfSorted(sorted);
      if found.Some? {
        assert found.value > start;
        assert SegmentOfSorted(sorted) == Some(Interval(start, found.value));
      }
    }
  }

  /** The speech start found in the sorted events is the one the reference reading
      takes from the earliest event and the least silence end. */
  lemma SpeechStartIsReference(events: seq<Event>)
    requires events != []
    ensures SortByTime(events) != []
    ensures SpeechStart(SortByTime(events))
            == if Earliest(events).kind == SilenceStart && Abs(Earliest(events).ts) < StartEpsilon
               then MinTs(events, AnyEnd).GetOr(0.0) else 0.0
  {
    var sorted := SortByTime(events);
    SortedHeadIsEarliest(events);
    SortIsAscending(events);
    FirstIsMin(sorted, AnyEnd);
    MinTsPermutation(sorted, events, AnyEnd);
  }

  /** What the first speech segment promises: none without events; otherwise speech ends
      at a reported silence start more than `EndEpsilon` after the speech start, and no
      silence start lies strictly between. */
  lemma FirstSpeechSegmentBounds(events: seq<Event>)
    ensures events == [] ==> FirstSpeechSegment(events).None?
    ensures FirstSpeechSegment(events).Some? ==>
      var seg := FirstSpeechSegment(events).value;
      seg.start + EndEpsilon < seg.end
      && Event(SilenceStart, seg.end) in events
      && forall e :: e in events && e.kind == SilenceStart && e.ts > seg.start + EndEpsilon ==> seg.end <= e.ts
  {
    FirstSpeechSegmentIsReference(events);
    var r := ReferenceSegment(events);
    if r.Some? {
      var seg := r.value;
      var w := StartAfter(seg.start + EndEpsilon);
      assert MinTs(events, w) == Some(seg.end);
      var i :| 0 <= i < |events| && Wants(w, events[i]) && events[i].ts == seg.end;
      assert events[i] == Event(SilenceStart, seg.end);
      assert forall e :: e in events && e.kind == SilenceStart && e.ts > seg.start + EndEpsilon ==> Wants(w, e);
    }
  }

  /** A report whose events all lie at least `StartEpsilon` after 0 does not begin in
      silence: speech runs from 0 to its least silence start. */
  lemma SpeechFromZero(events: seq<Event>)
    requires forall e :: e in events ==> e.ts >= StartEpsilon
    requires exists e :: e in events && e.kind == SilenceStart
    ensures FirstSpeechSegment(events)
            == Some(Interval(0.0, MinTs(events, StartAfter(EndEpsilon)).value))
  {
    FirstSpeechSegmentIsReference(events);
    var e :| e in events && e.kind == SilenceStart;
    assert Wants(StartAfter(EndEpsilon), e);
    var m := MinTs(events, AnyEvent).value;
    AtTimeHasEvent(events, m);
    AtTimeMembers(events, m);
    var first := Earliest(events);
    assert first in events;
    assert Abs(first.ts) >= StartEpsilon;
    assert 0.0 + EndEpsilon == EndEpsilon;
  }

  lemma {:induction false} AtTimeMembers(s: seq<Event>, t: real)
    ensures forall e :: e in AtTime(s, t) ==> e in s && e.ts == t
  {
    if s != [] {
      AtTimeMembers(s[1..], t);
    }
  }

  /** The report "silence from 0, ends at 1.2, silence again at 3.0" has its first
      speech from 1.2 to 3.0. */
  lemma SortExample(a: Event, b: Event, c: Event)
    requires a.ts <= b.ts <= c.ts
    ensures SortByTime([a, b, c]) == [a, b, c]
  {
    assert [a, b, c][1..] == [b, c] && [b, c][1..] == [c] && [c][1..] == [];
    assert SortByTime([c]) == InsertByTime(c, []) == [c];
    assert SortByTime([b, c]) == InsertByTime(b, [c]) == [b, c];
  }

  lemma FirstSpeechExample()
    ensures FirstSpeechSegment([Event(SilenceStart, 0.0), Event(SilenceEnd, 1.2), Event(SilenceStart, 3.0)])
            == Some(Interval(1.2, 3.0))
  {
    var a, b, c := Event(SilenceStart, 0.0), Event(SilenceEnd, 1.2), Event(SilenceStart, 3.0);
    var events := [a, b, c];
    SortExample(a, b, c);
    assert events[1..] == [b, c] && events[1..][1..] == [c] && [c][1..] == [];
    assert FirstTs(events, AnyEnd) == FirstTs([b, c], AnyEnd) == Some(1.2);
    assert SpeechStart(events) == 1.2;
    var w := StartAfter(1.2 + EndEpsilon);
    assert FirstTs([c], w) == Some(3.0);
    assert FirstTs(events, w) == FirstTs([b, c], w) == FirstTs([c], w);
  }

  // ---------------------------------------------------------------------------
  // Non-silent segments of a names master track (detect_nonsilent_segments)

  /** The state of the pairing loop: silences closed so far and the open start. */
  datatype Pairing = Pairing(silences: seq<Interval>, pending: Option<real>)

  /** One line of the pairing loop at personalized_video.py:469-481: a start line opens
      a silence (or clears the open one when its value does not parse); an end line
      closes the open silence, clamped at 0, and clears it even when its value does not
      parse; an end line with no open silence is ignored. */
  function PairStep(p: Pairing, line: string, parse: Parser): Pairing {
    if Contains(line, StartMarker) then Pairing(p.silences, StartValue(line, parse))
    else if Contains(line, EndMarker) && p.pending.Some? then
      match EndValue(line, parse)
      case None => Pairing(p.silences, None)
      case Some(e) => Pairing(p.silences + [Interval(Max(0.0, p.pending.value), Max(0.0, e))], None)
    else p
  }

  function PairSilences(lines: seq<string>, parse: Parser): Pairing {
    if lines == [] then Pairing([], None)
    else PairStep(PairSilences(lines[..|lines| - 1], parse), lines[|lines| - 1], parse)
  }

  /** The state of the complement loop: segments found so far and the cursor. */
  datatype Sweep = Sweep(segments: seq<Interval>, cursor: real)

  /** One silence of the loop at personalized_video.py:487-490: the gap before it is
      kept when it is positive and at least `minSegment` long, and the cursor moves to
      the end of the silence unless it is already past it. */
  function SweepStep(w: Sweep, s: Interval, minSegment: real): Sweep {
    Sweep(if s.start > w.cursor && s.start - w.cursor >= minSegment
          then w.segments + [Interval(w.cursor, s.start)] else w.segments,
          Max(w.cursor, s.end))
  }

  function SweepAll(silences: seq<Interval>, minSegment: real): Sweep {
    if silences == [] then Sweep([], 0.0)
    else SweepStep(SweepAll(silences[..|silences| - 1], minSegment), silences[|silences| - 1], minSegment)
  }

  /** The complement of the silences within [0, total] (personalized_video.py:484-492). */
  function NonsilentSegments(silences: seq<Interval>, total: real, minSegment: real): seq<Interval> {
    var w := SweepAll(silences, minSegment);
    if total > w.cursor && total - w.cursor >= minSegment
    then w.segments + [Interval(w.cursor, total)] else w.segments
  }

  /** The pairing loop at personalized_video.py:467-481. */
  method PairReport(lines: seq<string>, parse: Parser) returns (silences: seq<Interval>)
    ensures silences == PairSilences(lines, parse).silences
  {
    silences := [];
    var pending: Option<real> := None;
    for i := 0 to |lines|
      invariant Pairing(silences, pending) == PairSilences(lines[..i], parse)
    {
      assert lines[..i + 1][..i] == lines[..i];
      var line := lines[i];
      if Contains(line, StartMarker) {
        pending := StartValue(line, parse);
      } else if Contains(line, EndMarker) && pending.Some? {
        var e := EndValue(line, parse);
        if e.Some? {
          silences := silences + [Interval(Max(0.0, pending.value), Max(0.0, e.value))];
        }
        pending := None;
      }
    }
    assert lines[..|lines|] == lines;
  }

  /** The complement loop at personalized_video.py:484-492. */
  method Complement(silences: seq<Interval>, total: real, minSegment: real) returns (segments: seq<Interval>)
    ensures segments == NonsilentSegments(silences, total, minSegment)
  {
    segments := [];
    var cursor := 0.0;
    for i := 0 to |silences|
      invariant Sweep(segments, cursor) == SweepAll(silences[..i], minSegment)
    {
      assert silences[..i + 1][..i] == silences[..i];
      var s := silences[i];
      if s.start > cursor && s.start - cursor >= minSegment {
        segments := segments + [Interval(cursor, s.start)];
      }
      cursor := Max(cursor, s.end);
    }
    assert silences[..|silences|] == silences;
    if total > cursor && total - cursor >= minSegment {
      segments := segments + [Interval(cursor, total)];
    }
  }

  predicate Nonnegative(silences: seq<Interval>) {
    forall s :: s in silences ==> s.start >= 0.0 && s.end >= 0.0
  }

  lemma PairStepNonnegative(p: Pairing, line: string, parse: Parser)
    requires Nonnegative(p.silences)
    ensures Nonnegative(PairStep(p, line, parse).silences)
  {
    var q := PairStep(p, line, parse);
    assert q.silences == p.silences || (p.pending.Some? && exists e :: q.silences == p.silences + [Interval(Max(0.0, p.pending.value), Max(0.0, e))]);
  }

  /** Every paired silence lies at or after 0 (both ends are clamped). */
  lemma {:induction false} PairedSilencesNonnegative(lines: seq<string>, parse: Parser)
    ensures Nonnegative(PairSilences(lines, parse).silences)
  {
    if lines != [] {
      PairedSilencesNonnegative(lines[..|lines| - 1], parse);
      PairStepNonnegative(PairSilences(lines[..|lines| - 1], parse), lines[|lines| - 1], parse);
    }
  }

  /** An end line with no open silence changes nothing. */
  lemma UnpairedEndIgnored(lines: seq<string>, line: string, parse: Parser)
    requires PairSilences(lines, parse).pending.None?
    requires !Contains(line, StartMarker)
    ensures PairSilences(lines + [line], parse) == PairSilences(lines, parse)
  {
    assert (lines + [line])[..|lines|] == lines;
  }

  predicate Disjoint(a: Interval, b: Interval) {
    a.end <= b.start || b.end <= a.start
  }

  /** Intervals in order, each ending no later than the next one starts. */
  predicate InOrder(s: seq<Interval>) {
    forall i, j :: 0 <= i < j < |s| ==> s[i].end <= s[j].start
  }

  predicate SortedByStart(s: seq<Interval>) {
    forall i, j :: 0 <= i < j < |s| ==> s[i].start <= s[j].start
  }

  /** What one segment promises: it starts at or after 0, is at least `minSegment`
      long and is not empty. */
  predicate GoodSegment(seg: Interval, minSegment: real) {
    0.0 <= seg.start < seg.end && seg.end - seg.start >= minSegment
  }

  /** What the sweep keeps after each silence, when every silence ends no earlier than
      it starts. */
  predicate SweepInvariant(w: Sweep, silences: seq<Interval>, minSegment: real) {
    && w.cursor >= 0.0
    && InOrder(w.segments)
    && (forall seg :: seg in w.segments ==> GoodSegment(seg, minSegment) && seg.end <= w.cursor)
    && (forall s :: s in silences ==> s.end <= w.cursor)
  }

  lemma {:induction false} SweepKeepsInvariant(silences: seq<Interval>, minSegment: real)
    requires forall s :: s in silences ==> s.start <= s.end
    ensures SweepInvariant(SweepAll(silences, minSegment), silences, minSegment)
  {
    if silences != [] {
      var init, x := silences[..|silences| - 1], silences[|silences| - 1];
      assert forall s :: s in init ==> s in silences;
      SweepKeepsInvariant(init, minSegment);
      assert forall s :: s in silences ==> s in init || s == x;
    }
  }

  /** With silences in start order, no kept gap overlaps a silence and every kept gap
      ends no later than the last silence starts. */
  lemma {:induction false} SweepAvoidsSilences(silences: seq<Interval>, minSegment: real)
    requires forall s :: s in silences ==> s.start <= s.end
    requires SortedByStart(silences)
    ensures forall seg, s :: seg in SweepAll(silences, minSegment).segments && s in silences ==> Disjoint(seg, s)
    ensures silences != [] ==>
      forall seg :: seg in SweepAll(silences, minSegment).segments ==> seg.end <= silences[|silences| - 1].start
  {
    if silences != [] {
      var init, x := silences[..|silences| - 1], silences[|silences| - 1];
      assert forall s :: s in init ==> s in silences;
      SweepAvoidsSilences(init, minSegment);
      SweepKeepsInvariant(init, minSegment);
      if init != [] {
        assert init[|init| - 1] == silences[|silences| - 2];
      }
      assert forall s :: s in silences ==> s in init || s == x;
    }
  }

  /** The non-silent segments are each at least `minSegment` long, start at or after 0,
      are in order without overlapping, and (for silences in start order) overlap no
      silence. */
  lemma NonsilentSegmentsProperties(silences: seq<Interval>, total: real, minSegment: real)
    requires forall s :: s in silences ==> s.start <= s.end
    ensures var r := NonsilentSegments(silences, total, minSegment);
      && InOrder(r)
      && (forall seg :: seg in r ==> GoodSegment(seg, minSegment))
    ensures SortedByStart(silences) ==>
      forall seg, s :: seg in NonsilentSegments(silences, total, minSegment) && s in silences ==> Disjoint(seg, s)
  {
    SweepKeepsInvariant(silences, minSegment);
    if SortedByStart(silences) {
      SweepAvoidsSilences(silences, minSegment);
    }
  }

  /** Without silences the whole track is one segment, when it is long enough. */
  lemma NoSilenceOneSegment(total: real, minSegment: real)
    requires total > 0.0 && total >= minSegment
    ensures NonsilentSegments([], total, minSegment) == [Interval(0.0, total)]
  {
  }

  // ---------------------------------------------------------------------------
  // The three detectors on a `silencedetect` run

  /** What the engine returns for one `silencedetect` run: its exit status and the
      lines of its diagnostic output. */
  datatype Report = Report(exitCode: int, lines: seq<string>)

  const DetectFailed := "silencedetect failed"

  /** detect_nonsilent_segments' default `min_segment`. */
  const DefaultMinSegment: real := 0.08

  /** What detect_speech_end returns for a report: a failed run raises, otherwise the
      last silence start. */
  function SpeechEndOf(report: Report, parse: Parser): Result<Option<real>> {
    if report.exitCode != 0 then Err(Raised(DetectFailed))
    else Ok(LastStartTs(EventsOf(report.lines, parse)))
  }

  /** What detect_first_speech_segment returns for a report. */
  function FirstSpeechOf(report: Report, parse: Parser): Result<Option<Interval>> {
    if report.exitCode != 0 then Err(Raised(DetectFailed))
    else Ok(FirstSpeechSegment(EventsOf(report.lines, parse)))
  }

  /** detect_speech_end (personalized_video.py:174-199). */
  method DetectSpeechEndOf(report: Report, parse: Parser) returns (r: Result<Option<real>>)
    ensures r.Err? <==> report.exitCode != 0
    ensures r.Err? ==> r.error.Raised?
    ensures r == SpeechEndOf(report, parse)
  {
    if report.exitCode != 0 {
      return Err(Raised(DetectFailed));
    }
    var last := DetectSpeechEnd(report.lines, parse);
    LastStartIsLastStartEvent(report.lines, parse);
    return Ok(last);
  }

  /** detect_first_speech_segment (personalized_video.py:202-266). */
  method DetectFirstSpeechSegmentOf(report: Report, parse: Parser) returns (r: Result<Option<Interval>>)
    ensures r.Err? <==> report.exitCode != 0
    ensures r.Err? ==> r.error.Raised?
    ensures r == FirstSpeechOf(report, parse)
  {
    if report.exitCode != 0 {
      return Err(Raised(DetectFailed));
    }
    var seg := DetectFirstSpeechSegment(report.lines, parse);
    FirstSpeechSegmentIsReference(EventsOf(report.lines, parse));
    return Ok(seg);
  }

  /** What detect_nonsilent_segments (personalized_video.py:450-492) returns for a
      report; `total` is what the duration probe returns for the same track. */
  function NonsilentOf(report: Report, parse: Parser, total: Result<real>, minSegment: real): Result<seq<Interval>> {
    if report.exitCode != 0 then Err(Raised(DetectFailed))
    else if total.Err? then Err(total.error)
    else Ok(NonsilentSegments(PairSilences(report.lines, parse).silences, total.value, minSegment))
  }

  /** The segments a successful report yields are in order and each at least
      `minSegment` long, when every reported silence ends no earlier than it starts. */
  lemma NonsilentOfProperties(report: Report, parse: Parser, total: Result<real>, minSegment: real)
    requires forall s :: s in PairSilences(report.lines, parse).silences ==> s.start <= s.end
    ensures NonsilentOf(report, parse, total, minSegment).Ok? <==> report.exitCode == 0 && total.Ok?
    ensures report.exitCode != 0 ==> NonsilentOf(report, parse, total, minSegment) == Err(Raised(DetectFailed))
    ensures NonsilentOf(report, parse, total, minSegment).Ok? ==>
      var r := NonsilentOf(report, parse, total, minSegment).value;
      InOrder(r) && forall seg :: seg in r ==> GoodSegment(seg, minSegment)
  {
    if total.Ok? {
      NonsilentSegmentsProperties(PairSilences(report.lines, parse).silences, total.value, minSegment);
    }
  }

  method DetectNonsilentSegments(report: Report, parse: Parser, total: Result<real>, minSegment: real)
    returns (r: Result<seq<Interval>>)
    ensures r == NonsilentOf(report, parse, total, minSegment)
  {
    if report.exitCode != 0 {
      return Err(Raised(DetectFailed));
    }
    var silences := PairReport(report.lines, parse);
    if total.Err? {
      return Err(total.error);
    }
    var segments := Complement(silences, total.value, minSegment);
    return Ok(segments);
  }
}
