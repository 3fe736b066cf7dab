/** The name-audio cache: per-name clips stored under a file name derived from the
    name and a key of the speech settings, filled one name at a time or from one batch
    recording split at its pauses. The cache directory is the set of file names present
    in it. */
module NameCache {
  import opened Wrappers
  import opened Text
  import opened Reals
  import Silence

  // ---------------------------------------------------------------------------
  // safe_slug (personalized_video.py:269-271)

  predicate SlugChar(c: char) {
    ('A' <= c <= 'Z') || ('a' <= c <= 'z') || ('0' <= c <= '9') || c == '_' || c == '-'
  }

  predicate NotSlugChar(c: char) { !SlugChar(c) }

  predicate IsUnderscore(c: char) { c == '_' }

  /** `re.sub(r"[^A-Za-z0-9_-]+", "_", s)`: every maximal run of other characters
      becomes a single underscore. */
  function Collapse(s: string): string
    decreases |s|
  {
    if s == [] then []
    else if SlugChar(s[0]) then [s[0]] + Collapse(s[1..])
    else "_" + Collapse(TrimLeft(s[1..], NotSlugChar))
  }

  /** The collapse leaves only slug characters. */
  lemma {:induction false} CollapseIsSlugChars(s: string)
    ensures forall i :: 0 <= i < |Collapse(s)| ==> SlugChar(Collapse(s)[i])
    decreases |s|
  {
    if s != [] {
      if SlugChar(s[0]) {
        CollapseIsSlugChars(s[1..]);
      } else {
        CollapseIsSlugChars(TrimLeft(s[1..], NotSlugChar));
      }
    }
  }

  const DefaultSlug: string := "person"

  function SafeSlug(name: string): string {
    var slug := Trim(Collapse(Strip(name)), IsUnderscore);
    if slug == [] then DefaultSlug else slug
  }

  /** A usable slug: nonempty, made of letters, digits, `_` and `-`, and neither
      starting nor ending with `_`. */
  predicate IsSlug(s: string) {
    && s != []
    && (forall i :: 0 <= i < |s| ==> SlugChar(s[i]))
    && s[0] != '_' && s[|s| - 1] != '_'
  }

  lemma SafeSlugIsSlug(name: string)
    ensures IsSlug(SafeSlug(name))
  {
    var collapsed := Collapse(Strip(name));
    var slug := Trim(collapsed, IsUnderscore);
    TrimMeaning(collapsed, IsUnderscore);
    CollapseIsSlugChars(Strip(name));
    if slug != [] {
      var k := |collapsed| - |TrimLeft(collapsed, IsUnderscore)|;
      forall i | 0 <= i < |slug| ensures SlugChar(slug[i]) {
        assert slug[i] == collapsed[k + i];
      }
    } else {
      var d := DefaultSlug;
      assert d[0] == 'p' && d[5] == 'n';
      forall i | 0 <= i < |d| ensures SlugChar(d[i]) {
        assert 'a' <= d[i] <= 'z';
      }
    }
  }

  lemma {:induction false} CollapseKeepsSlugChars(s: string)
    requires forall i :: 0 <= i < |s| ==> SlugChar(s[i])
    ensures Collapse(s) == s
  {
    if s != [] {
      CollapseKeepsSlugChars(s[1..]);
      assert [s[0]] + s[1..] == s;
    }
  }

  /** A slug is its own slug. */
  lemma SlugIsFixedPoint(s: string)
    requires IsSlug(s)
    ensures SafeSlug(s) == s
  {
    assert !IsSpace(s[0]) && !IsSpace(s[|s| - 1]);
    TrimKeepsEdges(s, IsSpace);
    CollapseKeepsSlugChars(s);
    TrimKeepsEdges(s, IsUnderscore);
  }

  /** safe_slug is idempotent and always yields a usable slug. */
  lemma SafeSlugIdempotent(name: string)
    ensures IsSlug(SafeSlug(name))
    ensures SafeSlug(SafeSlug(name)) == SafeSlug(name)
  {
    SafeSlugIsSlug(name);
    SlugIsFixedPoint(SafeSlug(name));
  }

  /** Surrounding whitespace does not change the slug. */
  lemma SafeSlugIgnoresPadding(name: string)
    ensures SafeSlug(Strip(name)) == SafeSlug(name)
  {
    StripIdempotent(name);
  }

  // ---------------------------------------------------------------------------
  // name_audio_cache_key (personalized_video.py:352-377)

  /** The voice sample of a run, as far as the key sees it: whether the file exists and
      the SHA-256 hex digest of its content. */
  datatype Sample = Sample(present: bool, sha256Hex: string)

  /** The speech settings of a run that the cache key covers. */
  datatype Settings = Settings(
    provider: string, lang: string, template: string, command: string,
    sample: Option<Sample>, voiceId: Option<string>, modelId: Option<string>, speed: Option<real>)

  /** What the engine does for the cache, seen from outside: the SHA-1 hex digest, the
      three-decimal rendering of the speed, the run's text template applied to a name, the
      synthesis of a text into an audio file (None when it succeeds), `silencedetect` on
      the batch recording for a split trial, the number parser, the duration probe on
      the batch recording, whether the conversion of the recording of a text to WAV
      succeeds, whether cutting one clip from the batch recording succeeds, whether
      generating a silence of so many seconds succeeds, and whether concatenating a list
      of audio files into the names master succeeds. */
  datatype Engine = Engine(
    sha1Hex: string -> string,
    formatSpeed: real -> string,
    render: string -> string,
    speak: string -> Option<Error>,
    converts: string -> bool,
    cuts: Cut -> bool,
    silences: real -> bool,
    masters: seq<string> -> bool,
    probe: Trial -> Silence.Report,
    parse: Silence.Parser,
    batchLength: Result<real>)

  function VoiceHash(sample: Option<Sample>): string {
    if sample.Some? && sample.value.present then sample.value.sha256Hex else ""
  }

  /** The eight key fields, in their fixed order. */
  function KeyFields(s: Settings, e: Engine): seq<string> {
    [ s.provider, s.lang, s.template, s.command,
      s.voiceId.GetOr(""), s.modelId.GetOr(""),
      if s.speed.None? then "" else e.formatSpeed(s.speed.value),
      VoiceHash(s.sample) ]
  }

  function CacheKey(s: Settings, e: Engine): string {
    Join(KeyFields(s, e), "|")
  }

  predicate PipeFree(fields: seq<string>) {
    forall i :: 0 <= i < |fields| ==> '|' !in fields[i]
  }

  /** When no field contains `|`, the key splits back into its eight fields, so two such
      settings share a key exactly when their fields agree. */
  lemma CacheKeyRoundTrip(s: Settings, e: Engine)
    requires PipeFree(KeyFields(s, e))
    ensures Split(CacheKey(s, e), '|') == KeyFields(s, e)
  {
    SplitJoin(KeyFields(s, e), '|');
  }

  lemma CacheKeyInjective(s: Settings, t: Settings, e: Engine)
    requires PipeFree(KeyFields(s, e)) && PipeFree(KeyFields(t, e))
    ensures CacheKey(s, e) == CacheKey(t, e) <==> KeyFields(s, e) == KeyFields(t, e)
  {
    CacheKeyRoundTrip(s, e);
    CacheKeyRoundTrip(t, e);
  }

  // ---------------------------------------------------------------------------
  // name_cache_filename (personalized_video.py:347-349)

  const DigestLength: nat := 12
  const WavSuffix: string := ".wav"

  /** Python's `s[:n]`. */
  function Take(s: string, n: nat): (r: string)
    ensures |r| <= n && (|s| >= n ==> |r| == n)
  {
    if |s| <= n then s else s[..n]
  }

  function NameDigest(name: string, key: string, e: Engine): string {
    Take(e.sha1Hex(Strip(name) + "|" + key), DigestLength)
  }

  function CacheFilename(name: string, key: string, e: Engine): string {
    SafeSlug(name) + "_" + NameDigest(name, key, e) + WavSuffix
  }

  /** With digests of full length (SHA-1 hex has 40 characters), two clips share a file
      name exactly when their slugs and their digest prefixes agree. */
  lemma FilenameParts(slug: string, d: string)
    ensures var f := slug + "_" + d + WavSuffix;
      && |f| == |slug| + |d| + 5
      && f[..|slug|] == slug
      && f[|slug| + 1..|slug| + 1 + |d|] == d
  {
    var f := slug + "_" + d + WavSuffix;
    assert f == slug + ("_" + d + WavSuffix);
    assert f[|slug| + 1..] == d + WavSuffix;
  }

  lemma CacheFilenameInjective(n1: string, k1: string, n2: string, k2: string, e: Engine)
    requires |e.sha1Hex(Strip(n1) + "|" + k1)| >= DigestLength
    requires |e.sha1Hex(Strip(n2) + "|" + k2)| >= DigestLength
    ensures CacheFilename(n1, k1, e) == CacheFilename(n2, k2, e)
            <==> SafeSlug(n1) == SafeSlug(n2) && NameDigest(n1, k1, e) == NameDigest(n2, k2, e)
  {
    var s1, s2 := SafeSlug(n1), SafeSlug(n2);
    var d1, d2 := NameDigest(n1, k1, e), NameDigest(n2, k2, e);
    assert |d1| == DigestLength && |d2| == DigestLength;
    FilenameParts(s1, d1);
    FilenameParts(s2, d2);
  }

  /** A name and the same name with surrounding whitespace share their clip. */
  lemma CacheFilenameIgnoresPadding(name: string, key: string, e: Engine)
    ensures CacheFilename(Strip(name), key, e) == CacheFilename(name, key, e)
  {
    SafeSlugIgnoresPadding(name);
    StripIdempotent(name);
  }

  /** The clip file of a name under the settings of a run. */
  function ClipFile(name: string, s: Settings, e: Engine): string {
    CacheFilename(name, CacheKey(s, e), e)
  }

  // ---------------------------------------------------------------------------
  // Synthesis (ensure_name_clip_wav, personalized_video.py:405-447)

  predicate Synthesizes(provider: string) {
    provider == "gtts" || provider == "elevenlabs" || provider == "command"
  }

  const NoProvider := "TTS provider is 'none'"
  const UnsupportedProvider := "Unsupported TTS provider"

  /** What happens when a text is synthesized under the settings of a run: provider
      `none` and unknown providers end the program; otherwise it is up to the engine. */
  function Synthesis(s: Settings, e: Engine, text: string): Option<Error> {
    if s.provider == "none" then Some(Exit(NoProvider))
    else if !Synthesizes(s.provider) then Some(Exit(UnsupportedProvider))
    else e.speak(text)
  }

  /** `run` raises when the engine exits with a nonzero code (personalized_video.py:27-30). */
  const CommandFailed := "Command failed"

  /** A text spoken and converted to WAV (personalized_video.py:432-441 for one name,
      561-573 for the batch): the synthesis error, or a raise when the conversion fails. */
  function Recording(s: Settings, e: Engine, text: string): (r: Option<Error>)
    ensures Synthesis(s, e, text).Some? ==> r == Synthesis(s, e, text)
    ensures Synthesis(s, e, text).None? ==> (r.None? <==> e.converts(text))
    ensures r.Some? && r.value.Exit? ==> Synthesis(s, e, text) == r
  {
    match Synthesis(s, e, text)
    case Some(x) => Some(x)
    case None => if e.converts(text) then None else Some(Raised(CommandFailed))
  }

  lemma ProviderNoneRefused(s: Settings, e: Engine, text: string)
    requires s.provider == "none" || !Synthesizes(s.provider)
    ensures Synthesis(s, e, text).Some? && Synthesis(s, e, text).value.Exit?
    ensures Recording(s, e, text) == Synthesis(s, e, text)
  {
  }

  /** One clip: what ensure_name_clip_wav returns and the directory after it. A present
      clip is returned without synthesis; otherwise the clip is synthesized, converted and
      added, or nothing changes and the error is returned. */
  function ClipStep(name: string, s: Settings, e: Engine, files: set<string>): (Result<string>, set<string>) {
    var f := ClipFile(name, s, e);
    if f in files then (Ok(f), files)
    else match Recording(s, e, e.render(name))
      case Some(x) => (Err(x), files)
      case None => (Ok(f), files + {f})
  }

  /** A clip step never removes a file, never synthesizes over a present clip, and under
      provider `none` ends the program exactly when the clip is missing. */
  lemma ClipStepProperties(name: string, s: Settings, e: Engine, files: set<string>)
    ensures files <= ClipStep(name, s, e, files).1
    ensures ClipFile(name, s, e) in files ==> ClipStep(name, s, e, files) == (Ok(ClipFile(name, s, e)), files)
    ensures ClipStep(name, s, e, files).0.Ok? ==>
      ClipStep(name, s, e, files).0.value == ClipFile(name, s, e) && ClipFile(name, s, e) in ClipStep(name, s, e, files).1
    ensures s.provider == "none" ==>
      (ClipStep(name, s, e, files).0.Err? <==> ClipFile(name, s, e) !in files)
      && (ClipStep(name, s, e, files).0.Err? ==> ClipStep(name, s, e, files).0.error.Exit?)
  {
  }

  // ---------------------------------------------------------------------------
  // Batch synthesis (ensure_name_clips_batch_tts, personalized_video.py:495-622)

  /** The names whose clip is not in the cache, in order (personalized_video.py:528-534). */
  function Missing(names: seq<string>, key: string, files: set<string>, e: Engine): (r: seq<string>)
    ensures forall n :: n in r <==> n in names && CacheFilename(n, key, e) !in files
  {
    if names == [] then []
    else
      var init, last := names[..|names| - 1], names[|names| - 1];
      assert forall n :: n in names <==> n in init || n == last;
      var m := Missing(init, key, files, e);
      if CacheFilename(last, key, e) in files then m else m + [last]
  }

  /** One `silencedetect` setting tried on the batch recording. */
  datatype Trial = Trial(noiseDb: real, minSilence: real)

  /** The split ladder of personalized_video.py:582-586: the configured setting, then a
      higher threshold with shorter pauses, then higher and shorter again. */
  function Trials(db: real, dur: real): seq<Trial> {
    [Trial(db, dur), Trial(db + 5.0, Max(0.08, dur * 0.66)), Trial(db + 10.0, Max(0.05, dur * 0.5))]
  }

  function TrialSegments(e: Engine, t: Trial): Result<seq<Silence.Interval>> {
    Silence.NonsilentOf(e.probe(t), e.parse, e.batchLength, Silence.DefaultMinSegment)
  }

  /** The segments the ladder ends with, having found `last` so far: the first trial
      giving at least `need` segments, or the last trial's segments. */
  function LadderFrom(trials: seq<Trial>, need: nat, last: seq<Silence.Interval>, e: Engine): Result<seq<Silence.Interval>> {
    if trials == [] then Ok(last)
    else match TrialSegments(e, trials[0])
      case Err(x) => Err(x)
      case Ok(segs) => if |segs| >= need then Ok(segs) else LadderFrom(trials[1..], need, segs, e)
  }

  function Ladder(trials: seq<Trial>, need: nat, e: Engine): Result<seq<Silence.Interval>> {
    LadderFrom(trials, need, [], e)
  }

  /** The loop at personalized_video.py:588-595. */
  method RunLadder(trials: seq<Trial>, need: nat, e: Engine) returns (r: Result<seq<Silence.Interval>>)
    ensures r == Ladder(trials, need, e)
  {
    var segments: seq<Silence.Interval> := [];
    for i := 0 to |trials|
      invariant LadderFrom(trials[i..], need, segments, e) == Ladder(trials, need, e)
    {
      assert trials[i..][1..] == trials[i + 1..];
      var found := Silence.DetectNonsilentSegments(e.probe(trials[i]), e.parse, e.batchLength, Silence.DefaultMinSegment);
      if found.Err? {
        return Err(found.error);
      }
      segments := found.value;
      if |segments| >= need {
        return Ok(segments);
      }
    }
    return Ok(segments);
  }

  /** Trial `t` ran and gave fewer than `need` segments. */
  predicate TooFew(e: Engine, t: Trial, need: nat) {
    TrialSegments(e, t).Ok? && |TrialSegments(e, t).value| < need
  }

  /** The trials run in order and stop at the first one giving enough segments: a result
      with enough segments is that of some trial all of whose predecessors gave too few. */
  lemma {:induction false} LadderStopsAtFirstEnough(trials: seq<Trial>, need: nat, last: seq<Silence.Interval>, e: Engine)
    requires |last| < need
    requires LadderFrom(trials, need, last, e).Ok?
    requires |LadderFrom(trials, need, last, e).value| >= need
    ensures exists k :: 0 <= k < |trials| && TrialSegments(e, trials[k]) == LadderFrom(trials, need, last, e)
                        && forall j :: 0 <= j < k ==> TooFew(e, trials[j], need)
  {
    var r := LadderFrom(trials, need, last, e);
    var first := TrialSegments(e, trials[0]);
    var segs := first.value;
    if |segs| < need {
      var rest := trials[1..];
      assert TooFew(e, trials[0], need);
      assert r == LadderFrom(rest, need, segs, e);
      LadderStopsAtFirstEnough(rest, need, segs, e);
      var k :| 0 <= k < |rest| && TrialSegments(e, rest[k]) == r
               && forall j :: 0 <= j < k ==> TooFew(e, rest[j], need);
      assert rest[k] == trials[k + 1];
      forall j | 0 <= j < k + 1 ensures TooFew(e, trials[j], need) {
        if j > 0 {
          assert trials[j] == rest[j - 1];
        }
      }
      assert TrialSegments(e, trials[k + 1]) == r;
    } else {
      assert first == r;
      assert TrialSegments(e, trials[0]) == r;
    }
  }

  /** A result with too few segments means every trial ran and gave too few. */
  lemma {:induction false} LadderShortMeansAllShort(trials: seq<Trial>, need: nat, last: seq<Silence.Interval>, e: Engine)
    requires LadderFrom(trials, need, last, e).Ok?
    requires |LadderFrom(trials, need, last, e).value| < need
    ensures forall j :: 0 <= j < |trials| ==> TooFew(e, trials[j], need)
  {
    if trials != [] {
      var segs := TrialSegments(e, trials[0]).value;
      var rest := trials[1..];
      LadderShortMeansAllShort(rest, need, segs, e);
      assert forall j :: 1 <= j < |trials| ==> trials[j] == rest[j - 1];
    }
  }

  /** The text joined between two names of the batch (personalized_video.py:557-558). */
  function Separator(hint: string): string {
    ". " + Strip(if hint == "" then "..." else hint) + "\n"
  }

  function Rendered(names: seq<string>, e: Engine): (r: seq<string>)
    ensures |r| == |names| && forall i :: 0 <= i < |names| ==> r[i] == e.render(names[i])
  {
    if names == [] then [] else [e.render(names[0])] + Rendered(names[1..], e)
  }

  /** The batch text: every missing name rendered by the template, joined by the
      separator and closed by a full stop (personalized_video.py:559). */
  function BatchText(missing: seq<string>, hint: string, e: Engine): string {
    Join(Rendered(missing, e), Separator(hint)) + "."
  }

  lemma {:induction false} JoinHasPart(parts: seq<string>, sep: string, i: nat)
    requires i < |parts|
    ensures exists a, b :: Join(parts, sep) == a + parts[i] + b
  {
    if |parts| == 1 {
      assert Join(parts, sep) == [] + parts[0] + [];
    } else if i == 0 {
      assert Join(parts, sep) == [] + parts[0] + (sep + Join(parts[1..], sep));
    } else {
      JoinHasPart(parts[1..], sep, i - 1);
      var a, b :| Join(parts[1..], sep) == a + parts[1..][i - 1] + b;
      assert Join(parts, sep) == (parts[0] + sep + a) + parts[i] + b;
    }
  }

  /** Every missing name's text is spoken in the batch. */
  lemma BatchTextHasEveryName(missing: seq<string>, hint: string, e: Engine, i: nat)
    requires i < |missing|
    ensures Contains(BatchText(missing, hint, e), e.render(missing[i]))
  {
    JoinHasPart(Rendered(missing, e), Separator(hint), i);
    var a, b :| Join(Rendered(missing, e), Separator(hint)) == a + e.render(missing[i]) + b;
    assert BatchText(missing, hint, e) == a + e.render(missing[i]) + (b + ".");
    ContainsMiddle(a, e.render(missing[i]), b + ".");
  }

  const SplitShort := "Batch TTS split found too few segments"

  /** The segments the batch is cut at, or why there are none: provider `none` ends the
      program, a failed synthesis or `silencedetect` run fails the batch, and a ladder
      that finds fewer segments than missing names fails it before any clip is cut
      (personalized_video.py:536-600). */
  function BatchSplit(missing: seq<string>, s: Settings, e: Engine, db: real, dur: real, hint: string): (r: Result<seq<Silence.Interval>>)
    ensures r.Ok? ==> |r.value| >= |missing|
  {
    if s.provider == "none" then Err(Exit(NoProvider))
    else match Recording(s, e, BatchText(missing, hint, e))
      case Some(x) => Err(x)
      case None =>
        match Ladder(Trials(db, dur), |missing|, e)
        case Err(x) => Err(x)
        case Ok(segs) => if |segs| < |missing| then Err(Raised(SplitShort)) else Ok(segs)
  }

  /** personalized_video.py:536-600, up to the cutting loop. */
  method SplitBatch(missing: seq<string>, s: Settings, e: Engine, db: real, dur: real, hint: string)
    returns (r: Result<seq<Silence.Interval>>)
    ensures r == BatchSplit(missing, s, e, db, dur, hint)
  {
    if s.provider == "none" {
      return Err(Exit(NoProvider));
    }
    var failure := Recording(s, e, BatchText(missing, hint, e));
    if failure.Some? {
      return Err(failure.value);
    }
    var segments := RunLadder(Trials(db, dur), |missing|, e);
    if segments.Err? {
      return Err(segments.error);
    }
    if |segments.value| < |missing| {
      return Err(Raised(SplitShort));
    }
    return segments;
  }

  /** Provider `none` ends the program; a failed conversion and a short ladder are caught
      failures, not exits. */
  lemma BatchSplitProperties(missing: seq<string>, s: Settings, e: Engine, db: real, dur: real, hint: string)
    ensures s.provider == "none" ==> BatchSplit(missing, s, e, db, dur, hint) == Err(Exit(NoProvider))
    ensures Synthesizes(s.provider) && e.speak(BatchText(missing, hint, e)).None? && e.converts(BatchText(missing, hint, e))
            && Ladder(Trials(db, dur), |missing|, e).Ok? && |Ladder(Trials(db, dur), |missing|, e).value| < |missing|
            ==> BatchSplit(missing, s, e, db, dur, hint) == Err(Raised(SplitShort))
    ensures Synthesizes(s.provider) && e.speak(BatchText(missing, hint, e)).None? && !e.converts(BatchText(missing, hint, e))
            ==> BatchSplit(missing, s, e, db, dur, hint) == Err(Raised(CommandFailed))
  {
  }

  /** One clip cut from the batch recording: its file, where it starts and how long it is. */
  datatype Cut = Cut(file: string, start: real, duration: real)

  const MinClip: real := 0.05

  /** The clip files of `names`, in order. */
  function ClipFiles(names: seq<string>, key: string, e: Engine): (r: seq<string>)
    ensures |r| == |names| && forall i :: 0 <= i < |names| ==> r[i] == CacheFilename(names[i], key, e)
  {
    seq(|names|, i requires 0 <= i < |names| => CacheFilename(names[i], key, e))
  }

  /** The clip written to `file` from `seg`, at least `MinClip` long
      (personalized_video.py:602-605). */
  function CutOf(file: string, seg: Silence.Interval): Cut {
    Cut(file, seg.start, Max(MinClip, seg.end - seg.start))
  }

  /** outs[i] is cut at segments[i]. */
  function CutsFor(outs: seq<string>, segments: seq<Silence.Interval>): (r: seq<Cut>)
    requires |segments| >= |outs|
    ensures |r| == |outs|
  {
    if outs == [] then []
    else CutsFor(outs[..|outs| - 1], segments) + [CutOf(outs[|outs| - 1], segments[|outs| - 1])]
  }

  /** One more output adds its own cut at the end. */
  lemma CutsForStep(outs: seq<string>, segments: seq<Silence.Interval>, i: nat)
    requires i < |outs| && |segments| >= |outs|
    ensures CutsFor(outs[..i + 1], segments) == CutsFor(outs[..i], segments) + [CutOf(outs[i], segments[i])]
  {
    PrefixStep(outs, i);
  }

  /** Output i is cut at segment i, at least `MinClip` long. */
  lemma {:induction false} CutsForAt(outs: seq<string>, segments: seq<Silence.Interval>)
    requires |segments| >= |outs|
    ensures forall i :: 0 <= i < |outs| ==> CutsFor(outs, segments)[i] == CutOf(outs[i], segments[i])
  {
    if outs != [] {
      var init := outs[..|outs| - 1];
      CutsForAt(init, segments);
      assert forall i :: 0 <= i < |init| ==> init[i] == outs[i];
    }
  }

  /** How many of the cuts, taken in order, succeed before the first failing one: all of
      them, or the index of the cut that raises. */
  function CutsMade(cuts: seq<Cut>, e: Engine): (k: nat)
    ensures k <= |cuts|
    ensures forall i :: 0 <= i < k ==> e.cuts(cuts[i])
    ensures k < |cuts| ==> !e.cuts(cuts[k])
  {
    if cuts == [] || !e.cuts(cuts[0]) then 0 else 1 + CutsMade(cuts[1..], e)
  }

  /** The cuts first fail at `k` exactly when those before it succeed and the one at `k`,
      if any, fails. */
  lemma CutsMadeAt(outs: seq<string>, segments: seq<Silence.Interval>, e: Engine, k: nat)
    requires |segments| >= |outs| && k <= |outs|
    requires forall c :: c in CutsFor(outs[..k], segments) ==> e.cuts(c)
    requires k < |outs| ==> !e.cuts(CutOf(outs[k], segments[k]))
    ensures CutsMade(CutsFor(outs, segments), e) == k
  {
    CutsForAt(outs, segments);
    CutsForAt(outs[..k], segments);
    var done := CutsFor(outs[..k], segments);
    forall i | 0 <= i < k ensures e.cuts(CutOf(outs[i], segments[i])) {
      assert outs[..k][i] == outs[i];
      assert done[i] in done;
    }
  }

  /** The present clips with the first `k` missing names mapped to their outputs. */
  function Assigned(present: map<string, string>, missing: seq<string>, outs: seq<string>, k: nat): map<string, string>
    requires k <= |missing| && |outs| == |missing|
  {
    if k == 0 then present else Assigned(present, missing, outs, k - 1)[missing[k - 1] := outs[k - 1]]
  }

  /** Those clips are exactly the present ones and the first `k` missing ones, each with
      its present file or its output. */
  lemma {:induction false} AssignedMeaning(present: map<string, string>, missing: seq<string>, outs: seq<string>, k: nat)
    requires k <= |missing| && |outs| == |missing|
    ensures var m := Assigned(present, missing, outs, k);
      && (forall n :: n in m <==> n in present || n in missing[..k])
      && (forall n :: n in m ==>
            (n in present && m[n] == present[n]) || exists i :: 0 <= i < k && missing[i] == n && m[n] == outs[i])
  {
    if k > 0 {
      AssignedMeaning(present, missing, outs, k - 1);
      PrefixStep(missing, k - 1);
    }
  }

  /** Growing a prefix of `xs` by one element. */
  lemma PrefixStep<T>(xs: seq<T>, i: nat)
    requires i < |xs|
    ensures xs[..i + 1][..i] == xs[..i]
    ensures forall x :: x in xs[..i + 1] <==> x in xs[..i] || x == xs[i]
  {
    assert xs[..i + 1] == xs[..i] + [xs[i]];
  }

  /** The file map of `names`. */
  function FileMap(names: seq<string>, key: string, e: Engine): map<string, string> {
    map n | n in names :: CacheFilename(n, key, e)
  }

  /** A map holding exactly the clips of `names` is their file map. */
  lemma IsFileMap(m: map<string, string>, names: seq<string>, key: string, e: Engine)
    requires forall n :: n in m <==> n in names
    requires forall n :: n in m ==> m[n] == CacheFilename(n, key, e)
    ensures m == FileMap(names, key, e)
  {
    var f := FileMap(names, key, e);
    assert m.Keys == f.Keys;
  }

  /** The present clips and the clips cut for the missing names make up the file map. */
  lemma MergedIsFileMap(names: seq<string>, present: map<string, string>, missing: seq<string>, outs: seq<string>,
                        clips: map<string, string>, key: string, e: Engine)
    requires forall n :: n in present ==> n in names && present[n] == CacheFilename(n, key, e)
    requires forall n :: n in missing ==> n in names
    requires forall n :: n in names ==> n in present || n in missing
    requires outs == ClipFiles(missing, key, e)
    requires forall n :: n in clips <==> n in present || n in missing
    requires forall n :: n in clips ==>
      (n in present && clips[n] == present[n]) || exists i :: 0 <= i < |missing| && missing[i] == n && clips[n] == outs[i]
    ensures clips == FileMap(names, key, e)
  {
    forall n | n in clips ensures clips[n] == CacheFilename(n, key, e) {
      if !(n in present && clips[n] == present[n]) {
        var i :| 0 <= i < |missing| && missing[i] == n && clips[n] == outs[i];
      }
    }
    IsFileMap(clips, names, key, e);
  }

  /** The cache files of `names`. */
  function ClipSet(names: seq<string>, s: Settings, e: Engine): set<string> {
    set n | n in names :: ClipFile(n, s, e)
  }

  /** The clips the batch writes into a directory holding `files`: none when no clip is
      missing or the split fails, otherwise those cut before the first failing cut. */
  function BatchWritten(names: seq<string>, s: Settings, e: Engine, db: real, dur: real, hint: string, files: set<string>): set<string> {
    var key := CacheKey(s, e);
    var missing := Missing(names, key, files, e);
    if missing == [] then {}
    else match BatchSplit(missing, s, e, db, dur, hint)
      case Err(_) => {}
      case Ok(segs) =>
        var outs := ClipFiles(missing, key, e);
        set f | f in outs[..CutsMade(CutsFor(outs, segs), e)]
  }

  /** The batch writes only clips of its names that were missing, and nothing at all
      when every clip is present. */
  lemma BatchWrittenClips(names: seq<string>, s: Settings, e: Engine, db: real, dur: real, hint: string, files: set<string>)
    ensures BatchWritten(names, s, e, db, dur, hint, files) <= ClipSet(names, s, e)
    ensures BatchWritten(names, s, e, db, dur, hint, files) !! files
    ensures (forall n :: n in names ==> ClipFile(n, s, e) in files) ==>
      Missing(names, CacheKey(s, e), files, e) == [] && BatchWritten(names, s, e, db, dur, hint, files) == {}
  {
    var key := CacheKey(s, e);
    var missing := Missing(names, key, files, e);
    var written := BatchWritten(names, s, e, db, dur, hint, files);
    var outs := ClipFiles(missing, key, e);
    forall f | f in written ensures f in ClipSet(names, s, e) && f !in files {
      var segs := BatchSplit(missing, s, e, db, dur, hint).value;
      var k := CutsMade(CutsFor(outs, segs), e);
      var i :| 0 <= i < k && outs[..k][i] == f;
      assert missing[i] in missing;
    }
  }

  /** One step of the per-name fill: a name recorded in `m` with its clip present is
      skipped; otherwise its clip is ensured and recorded. */
  function FillStep(n: string, s: Settings, e: Engine, m: map<string, string>, files: set<string>)
    : (Result<map<string, string>>, set<string>)
  {
    if n in m && m[n] in files then (Ok(m), files)
    else
      var (c, after) := ClipStep(n, s, e, files);
      (if c.Err? then Err(c.error) else Ok(m[n := c.value]), after)
  }

  /** The per-name fill of `names` in order, stopping at the first failure. */
  function FillFrom(names: seq<string>, s: Settings, e: Engine, m: map<string, string>, files: set<string>)
    : (Result<map<string, string>>, set<string>)
    decreases |names|
  {
    if names == [] then (Ok(m), files)
    else
      var (r, after) := FillStep(names[0], s, e, m, files);
      if r.Err? then (r, after) else FillFrom(names[1..], s, e, r.value, after)
  }

  /** Every map entry is the cache file of its name. */
  predicate ClipsOf(m: map<string, string>, s: Settings, e: Engine) {
    forall n :: n in m ==> m[n] == ClipFile(n, s, e)
  }

  /** The fill only adds clips of its names, and adds nothing, successfully, when every
      clip is present. */
  lemma {:induction false} FillFromFiles(names: seq<string>, s: Settings, e: Engine, m: map<string, string>, files: set<string>)
    ensures var (r, after) := FillFrom(names, s, e, m, files);
      && files <= after <= files + ClipSet(names, s, e)
      && ((forall n :: n in names ==> ClipFile(n, s, e) in files) ==> r.Ok? && after == files)
    decreases |names|
  {
    if names != [] {
      var n := names[0];
      var (r, mid) := FillStep(n, s, e, m, files);
      assert n in names;
      assert forall x :: x in names[1..] ==> x in names;
      ClipStepProperties(n, s, e, files);
      if r.Ok? {
        FillFromFiles(names[1..], s, e, r.value, mid);
      }
    }
  }

  /** A successful fill keeps every entry of `m`, records every name under its clip,
      which is present; a failed fill fails with the recording error of one of the
      names. */
  lemma {:induction false} FillFromResult(names: seq<string>, s: Settings, e: Engine, m: map<string, string>, files: set<string>)
    requires ClipsOf(m, s, e)
    ensures var (r, after) := FillFrom(names, s, e, m, files);
      && (r.Ok? ==> ClipsOf(r.value, s, e))
      && (r.Ok? ==> forall n :: n in m ==> n in r.value && r.value[n] == m[n])
      && (r.Ok? ==> forall n :: n in names ==> n in r.value && r.value[n] in after)
      && (r.Err? ==> exists n :: n in names && Recording(s, e, e.render(n)) == Some(r.error))
    decreases |names|
  {
    if names != [] {
      var n := names[0];
      var (r, mid) := FillStep(n, s, e, m, files);
      assert n in names;
      ClipStepProperties(n, s, e, files);
      if r.Ok? {
        FillFromResult(names[1..], s, e, r.value, mid);
        FillFromFiles(names[1..], s, e, r.value, mid);
        assert forall x :: x in names ==> x == n || x in names[1..];
      }
    }
  }

  // ---------------------------------------------------------------------------
  // The cache directory

  class CacheDir {
    /** The file names present in the directory. */
    var files: set<string>

    constructor(present: set<string>)
      ensures files == present
    {
      files := present;
    }

    /** ensure_name_clip_wav (personalized_video.py:380-447). */
    method EnsureClip(name: string, s: Settings, e: Engine) returns (r: Result<string>)
      modifies this
      ensures (r, files) == ClipStep(name, s, e, old(files))
      ensures old(files) <= files
      ensures r.Ok? ==> r.value == ClipFile(name, s, e) && r.value in files
      ensures r.Err? ==> Recording(s, e, e.render(name)) == Some(r.error)
    {
      var key := CacheKey(s, e);
      var f := CacheFilename(name, key, e);
      if f in files {
        return Ok(f);
      }
      var failure := Recording(s, e, e.render(name));
      if failure.Some? {
        return Err(failure.value);
      }
      files := files + {f};
      return Ok(f);
    }

    /** The scan at personalized_video.py:528-534: the clips present, by name, and the
        names whose clip is missing, in order. */
    method Scan(names: seq<string>, key: string, e: Engine) returns (present: map<string, string>, missing: seq<string>)
      ensures missing == Missing(names, key, files, e)
      ensures forall n :: n in present <==> n in names && CacheFilename(n, key, e) in files
      ensures forall n :: n in present ==> present[n] == CacheFilename(n, key, e)
    {
      present := map[];
      missing := [];
      for i := 0 to |names|
        invariant missing == Missing(names[..i], key, files, e)
        invariant forall n :: n in present <==> n in names[..i] && CacheFilename(n, key, e) in files
        invariant forall n :: n in present ==> present[n] == CacheFilename(n, key, e)
      {
        assert names[..i + 1][..i] == names[..i];
        assert forall n :: n in names[..i + 1] <==> n in names[..i] || n == names[i];
        var out := CacheFilename(names[i], key, e);
        if out in files {
          present := present[names[i] := out];
        } else {
          missing := missing + [names[i]];
        }
      }
      assert names[..|names|] == names;
    }

    /** The cutting loop at personalized_video.py:602-626: missing[i] is cut at
        segments[i] and added to the directory and to the map, until a cut fails; the
        clips cut before it stay in the directory and the failure is raised. Without a
        failure the present clips and the cut ones give every name its cache file. */
    method CutAll(names: seq<string>, key: string, missing: seq<string>, outs: seq<string>, segments: seq<Silence.Interval>,
                  present: map<string, string>, e: Engine)
      returns (r: Result<map<string, string>>, cuts: seq<Cut>)
      requires forall n :: n in present ==> n in names && present[n] == CacheFilename(n, key, e)
      requires forall n :: n in missing ==> n in names
      requires forall n :: n in names ==> n in present || n in missing
      requires outs == ClipFiles(missing, key, e) && |segments| >= |missing|
      modifies this
      ensures var k := CutsMade(CutsFor(outs, segments), e);
        && files == old(files) + (set f | f in outs[..k])
        && cuts == CutsFor(outs[..k], segments)
        && (k < |outs| <==> r.Err?)
        && (r.Err? ==> r.error == Raised(CommandFailed))
      ensures r.Ok? ==> r.value == FileMap(names, key, e)
    {
      var idx, clips;
      idx, clips, cuts := CutWhileOk(missing, outs, segments, present, e);
      CutsMadeAt(outs, segments, e, idx);
      if idx < |missing| {
        r := Err(Raised(CommandFailed));
      } else {
        AssignedMeaning(present, missing, outs, idx);
        assert missing[..|missing|] == missing;
        MergedIsFileMap(names, present, missing, outs, clips, key, e);
        r := Ok(clips);
      }
    }

    /** The loop itself: the first `idx` cuts succeed and are written, and the next one,
        if any, fails. */
    method CutWhileOk(missing: seq<string>, outs: seq<string>, segments: seq<Silence.Interval>, present: map<string, string>, e: Engine)
      returns (idx: nat, clips: map<string, string>, cuts: seq<Cut>)
      requires |outs| == |missing| && |segments| >= |missing|
      modifies this
      ensures idx <= |missing|
      ensures files == old(files) + set f | f in outs[..idx]
      ensures cuts == CutsFor(outs[..idx], segments)
      ensures forall c :: c in cuts ==> e.cuts(c)
      ensures idx < |missing| ==> !e.cuts(CutOf(outs[idx], segments[idx]))
      ensures clips == Assigned(present, missing, outs, idx)
    {
      clips := present;
      cuts := [];
      idx := 0;
      while idx < |missing| && e.cuts(CutOf(outs[idx], segments[idx]))
        invariant idx <= |missing|
        invariant files == old(files) + set f | f in outs[..idx]
        invariant cuts == CutsFor(outs[..idx], segments)
        invariant forall c :: c in cuts ==> e.cuts(c)
        invariant clips == Assigned(present, missing, outs, idx)
      {
        PrefixStep(outs, idx);
        CutsForStep(outs, segments, idx);
        cuts := cuts + [CutOf(outs[idx], segments[idx])];
        files := files + {outs[idx]};
        clips := clips[missing[idx] := outs[idx]];
        idx := idx + 1;
      }
    }

    /** ensure_name_clips_batch_tts (personalized_video.py:495-622): present clips are
        kept; the missing ones are synthesized as one recording, converted, split, and cut
        in order. If the split fails, none is written; if a cut fails, the clips cut before
        it are written and the failure is raised. `cuts` are the clips cut from the
        recording. */
    method EnsureBatch(names: seq<string>, s: Settings, e: Engine, db: real, dur: real, hint: string)
      returns (r: Result<map<string, string>>, cuts: seq<Cut>)
      modifies this
      ensures var key := CacheKey(s, e);
        var missing := Missing(names, key, old(files), e);
        if missing == [] then r == Ok(FileMap(names, key, e)) && files == old(files) && cuts == []
        else match BatchSplit(missing, s, e, db, dur, hint)
          case Err(x) => r == Err(x) && files == old(files) && cuts == []
          case Ok(segs) =>
            var outs := ClipFiles(missing, key, e);
            var k := CutsMade(CutsFor(outs, segs), e);
            && r == (if k == |outs| then Ok(FileMap(names, key, e)) else Err(Raised(CommandFailed)))
            && files == old(files) + (set f | f in outs[..k])
            && cuts == CutsFor(outs[..k], segs)
      ensures files == old(files) + BatchWritten(names, s, e, db, dur, hint, old(files))
    {
      var key := CacheKey(s, e);
      var present, missing := Scan(names, key, e);
      cuts := [];
      if missing == [] {
        IsFileMap(present, names, key, e);
        return Ok(present), cuts;
      }
      var segments := SplitBatch(missing, s, e, db, dur, hint);
      if segments.Err? {
        return Err(segments.error), cuts;
      }
      var outs := ClipFiles(missing, key, e);
      r, cuts := CutAll(names, key, missing, outs, segments.value, present, e);
    }
  
    /** The optional batch of main (personalized_video.py:1837-1860): its clips, or no
        clips when the batch fails with a caught error. */
    method TryBatch(names: seq<string>, s: Settings, e: Engine, batch: bool, db: real, dur: real, hint: string)
      returns (r: Result<map<string, string>>)
      modifies this
      ensures files == old(files) + if batch && Synthesizes(s.provider) then BatchWritten(names, s, e, db, dur, hint, old(files)) else {}
      ensures files <= old(files) + ClipSet(names, s, e)
      ensures (forall n :: n in names ==> ClipFile(n, s, e) in old(files)) ==> r.Ok? && files == old(files)
      ensures r.Ok? ==> forall n :: n in r.value ==> r.value[n] == ClipFile(n, s, e)
      ensures r.Ok? ==> r.value == map[] || r.value == FileMap(names, CacheKey(s, e), e)
      ensures r.Err? ==> r.error.Exit?
      ensures !(batch && Synthesizes(s.provider)) ==> r == Ok(map[]) && files == old(files)
    {
      if !(batch && Synthesizes(s.provider)) {
        return Ok(map[]);
      }
      var found, cuts := EnsureBatch(names, s, e, db, dur, hint);
      BatchWrittenClips(names, s, e, db, dur, hint, old(files));
      if found.Ok? {
        return Ok(found.value);
      } else if found.error.Exit? {
        return Err(found.error);
      }
      return Ok(map[]);
    }

    /** The per-name loop of main (personalized_video.py:1862-1875): every name without a
        present clip in `m` gets one, or the first failure ends the loop. */
    method FillRemaining(names: seq<string>, s: Settings, e: Engine, m0: map<string, string>)
      returns (r: Result<map<string, string>>)
      requires ClipsOf(m0, s, e)
      modifies this
      ensures (r, files) == FillFrom(names, s, e, m0, old(files))
      ensures old(files) <= files <= old(files) + ClipSet(names, s, e)
      ensures (forall n :: n in names ==> ClipFile(n, s, e) in old(files)) ==> r.Ok? && files == old(files)
      ensures r.Ok? ==> ClipsOf(r.value, s, e)
      ensures r.Ok? ==> forall n :: n in names ==> n in r.value && r.value[n] in files
      ensures r.Err? ==> exists n :: n in names && Recording(s, e, e.render(n)) == Some(r.error)
    {
      FillFromFiles(names, s, e, m0, files);
      FillFromResult(names, s, e, m0, files);
      var m := m0;
      for i := 0 to |names|
        invariant FillFrom(names[i..], s, e, m, files) == FillFrom(names, s, e, m0, old(files))
      {
        assert names[i..][1..] == names[i + 1..];
        var next := FillName(names[i], s, e, m);
        if next.Err? {
          return Err(next.error);
        }
        m := next.value;
      }
      assert names[|names|..] == [];
      return Ok(m);
    }

    /** One step of that loop: a name whose clip is in `m` and present is skipped;
        otherwise its clip is ensured and recorded in `m`. The names `done` before it
        stay ready. */
    method FillName(n: string, s: Settings, e: Engine, m: map<string, string>)
      returns (r: Result<map<string, string>>)
      modifies this
      ensures (r, files) == FillStep(n, s, e, m, old(files))
      ensures old(files) <= files <= old(files) + {ClipFile(n, s, e)}
      ensures n in m && m[n] in old(files) ==> r == Ok(m) && files == old(files)
      ensures ClipFile(n, s, e) in old(files) ==> r.Ok? && files == old(files)
      ensures ClipsOf(m, s, e) && r.Ok? ==> ClipsOf(r.value, s, e)
      ensures r.Ok? ==> n in r.value && r.value[n] in files
      ensures r.Ok? ==> forall x :: x in m && m[x] in old(files) ==> x in r.value && r.value[x] == m[x] && m[x] in files
      ensures r.Err? ==> Recording(s, e, e.render(n)) == Some(r.error)
    {
      if n in m && m[n] in files {
        return Ok(m);
      }
      var clip := EnsureClip(n, s, e);
      if clip.Err? {
        return Err(clip.error);
      }
      return Ok(m[n := clip.value]);
    }

    /** The cache filling of main (personalized_video.py:1837-1875): the batch, when it
        is enabled and the provider can speak, then one clip per name still without a
        present clip. A failed batch is caught and only its exits end the filling. */
    method FillCache(names: seq<string>, s: Settings, e: Engine, batch: bool, db: real, dur: real, hint: string)
      returns (r: Result<map<string, string>>)
      modifies this
      ensures old(files) <= files <= old(files) + ClipSet(names, s, e)
      ensures (forall n :: n in names ==> ClipFile(n, s, e) in old(files)) ==> r.Ok? && files == old(files)
      ensures r.Ok? ==> forall n :: n in r.value ==> r.value[n] == ClipFile(n, s, e)
      ensures r.Ok? ==> forall n :: n in names ==> n in r.value && r.value[n] in files
      ensures r.Err? ==> r.error.Exit? || exists n :: n in names && Recording(s, e, e.render(n)) == Some(r.error)
    {
      var m := TryBatch(names, s, e, batch, db, dur, hint);
      if m.Err? {
        return m;
      }
      r := FillRemaining(names, s, e, m.value);
    }

    /** ensure_silence_wav (personalized_video.py:625-648): the silence file of `seconds`
        is kept when present and generated otherwise; a failed run raises and writes
        nothing. */
    method EnsureSilence(seconds: real, e: Engine) returns (r: Result<string>)
      modifies this
      ensures var f := SilenceFile(seconds);
        if f in old(files) then r == Ok(f) && files == old(files)
        else if e.silences(seconds) then r == Ok(f) && files == old(files) + {f}
        else r == Err(Raised(CommandFailed)) && files == old(files)
    {
      var f := SilenceFile(seconds);
      if f in files {
        return Ok(f);
      }
      if !e.silences(seconds) {
        return Err(Raised(CommandFailed));
      }
      files := files + {f};
      return Ok(f);
    }

    /** The names master of main (personalized_video.py:1877-1885): the silence of `gap`
        seconds is ensured in the cache directory, then the clips of the names, in order
        with that silence between two of them, are joined into the master, which lies
        outside the directory. Either run failing raises; after a failed silence run
        the master is not attempted. */
    method NamesMaster(names: seq<string>, m: map<string, string>, gap: real, e: Engine) returns (failure: Option<Error>)
      requires forall n :: n in names ==> n in m
      modifies this
      ensures var f := SilenceFile(gap);
        var made := f in old(files) || e.silences(gap);
        && files == old(files) + (if made then {f} else {})
        && failure == if made then MasterRun(MasterList(MasterInputs(names, m), f), e) else Some(Raised(CommandFailed))
    {
      var silence := EnsureSilence(gap, e);
      if silence.Err? {
        return Some(silence.error);
      }
      var entries := MasterConcat(MasterInputs(names, m), silence.value);
      failure := MasterRun(entries, e);
    }
  }

  // ---------------------------------------------------------------------------
  // Names of a run (main, personalized_video.py:1829-1835)

  /** The stripped, nonempty names, each once, in order of first appearance. */
  function UniqueNames(names: seq<string>): seq<string> {
    if names == [] then []
    else
      var u := UniqueNames(names[..|names| - 1]);
      var n := Strip(names[|names| - 1]);
      if n == [] || n in u then u else u + [n]
  }

  /** The de-duplication loop with its `seen` set. */
  method Dedup(names: seq<string>) returns (unique: seq<string>)
    ensures unique == UniqueNames(names)
  {
    unique := [];
    var seen: set<string> := {};
    for i := 0 to |names|
      invariant unique == UniqueNames(names[..i])
      invariant seen == set x | x in unique
    {
      assert names[..i + 1][..i] == names[..i];
      var n := Strip(names[i]);
      if n == [] || n in seen {
        continue;
      }
      seen := seen + {n};
      unique := unique + [n];
    }
    assert names[..|names|] == names;
  }

  /** No element occurs twice. */
  predicate Distinct(u: seq<string>) {
    forall i, j :: 0 <= i < j < |u| ==> u[i] != u[j]
  }

  /** No name is listed twice. */
  lemma {:induction false} UniqueNamesDistinct(names: seq<string>)
    ensures Distinct(UniqueNames(names))
  {
    if names != [] {
      var u := UniqueNames(names[..|names| - 1]);
      UniqueNamesDistinct(names[..|names| - 1]);
      var n := Strip(names[|names| - 1]);
      if n != [] && n !in u {
        var v := u + [n];
        assert UniqueNames(names) == v;
        forall i, j | 0 <= i < j < |v| ensures v[i] != v[j] {
          if j == |u| {
            assert v[i] == u[i] && u[i] in u && v[j] == n;
          } else {
            assert v[i] == u[i] && v[j] == u[j];
          }
        }
        assert Distinct(v);
      } else {
        assert UniqueNames(names) == u;
      }
    }
  }

  /** The listed names are exactly the nonempty stripped names. */
  lemma {:induction false} UniqueNamesMembers(names: seq<string>)
    ensures forall n :: n in UniqueNames(names) <==> n != [] && exists k :: 0 <= k < |names| && Strip(names[k]) == n
  {
    if names != [] {
      var init := names[..|names| - 1];
      UniqueNamesMembers(init);
      assert forall k :: 0 <= k < |init| ==> init[k] == names[k];
      var n := Strip(names[|names| - 1]);
      forall x ensures x in UniqueNames(names) <==> x != [] && exists k :: 0 <= k < |names| && Strip(names[k]) == x {
        if x != [] && x != n && (exists k :: 0 <= k < |names| && Strip(names[k]) == x) {
          var k :| 0 <= k < |names| && Strip(names[k]) == x;
          assert k < |init|;
        }
      }
    }
  }

  // ---------------------------------------------------------------------------
  // The silence clip (ensure_silence_wav, personalized_video.py:625-648)

  /** The length of the silence in whole milliseconds, `int(round(seconds * 1000))`. */
  function SilenceMillis(seconds: real): int {
    RoundHalfEven(seconds * 1000.0)
  }

  /** `_silence_<ms>ms.wav`. */
  function SilenceFile(seconds: real): string {
    "_silence_" + IntText(SilenceMillis(seconds)) + "ms.wav"
  }

  /** Two silences share a file exactly when they round to the same milliseconds, and
      no silence file is the clip of a name (slugs never start with `_`). */
  lemma SilenceFileProperties(a: real, b: real, name: string, s: Settings, e: Engine)
    ensures SilenceFile(a) == SilenceFile(b) <==> SilenceMillis(a) == SilenceMillis(b)
    ensures SilenceFile(a) != ClipFile(name, s, e)
  {
    var ta, tb := IntText(SilenceMillis(a)), IntText(SilenceMillis(b));
    IntTextInjective(SilenceMillis(a), SilenceMillis(b));
    if SilenceFile(a) == SilenceFile(b) {
      var fa, fb := SilenceFile(a), SilenceFile(b);
      assert fa[9..|fa| - 6] == ta;
      assert fb[9..|fb| - 6] == tb;
    }
    SafeSlugIsSlug(name);
    assert SilenceFile(a)[0] == '_';
    assert ClipFile(name, s, e)[0] == SafeSlug(name)[0];
  }

  // ---------------------------------------------------------------------------
  // The names master track (build_names_master_wav, personalized_video.py:651-682)

  /** The clips of the names, in order (`[name_to_wav[n] for n in unique_names]`). */
  function MasterInputs(names: seq<string>, m: map<string, string>): (r: seq<string>)
    requires forall n :: n in names ==> n in m
    ensures |r| == |names| && forall i :: 0 <= i < |names| ==> r[i] == m[names[i]]
  {
    seq(|names|, i requires 0 <= i < |names| => m[names[i]])
  }

  /** The outcome of joining the list into the master: nothing, or the failed run. */
  function MasterRun(entries: seq<string>, e: Engine): (r: Option<Error>)
    ensures r.None? <==> e.masters(entries)
    ensures r.Some? ==> r.value == Raised(CommandFailed)
  {
    if e.masters(entries) then None else Some(Raised(CommandFailed))
  }

  /** The concatenation list: every clip in order with the gap clip between two clips. */
  function MasterList(clips: seq<string>, gap: string): seq<string> {
    if |clips| <= 1 then clips else [clips[0], gap] + MasterList(clips[1..], gap)
  }

  /** The loop at personalized_video.py:660-663. */
  method MasterConcat(clips: seq<string>, gap: string) returns (entries: seq<string>)
    ensures entries == MasterList(clips, gap)
  {
    entries := [];
    for i := 0 to |clips|
      invariant entries + MasterList(clips[i..], gap) == MasterList(clips, gap)
    {
      assert clips[i..][1..] == clips[i + 1..];
      entries := entries + [clips[i]];
      if i != |clips| - 1 {
        entries := entries + [gap];
      }
    }
  }

  lemma {:induction false} MasterListLayout(clips: seq<string>, gap: string)
    requires clips != []
    ensures |MasterList(clips, gap)| == 2 * |clips| - 1
    ensures forall i :: 0 <= i < |clips| ==> MasterList(clips, gap)[2 * i] == clips[i]
    ensures forall i :: 0 <= i < |clips| - 1 ==> MasterList(clips, gap)[2 * i + 1] == gap
  {
    if |clips| > 1 {
      MasterListLayout(clips[1..], gap);
      var r, t := MasterList(clips, gap), MasterList(clips[1..], gap);
      assert r == [clips[0], gap] + t;
      forall i | 1 <= i < |clips| ensures r[2 * i] == clips[i] {
        assert r[2 * i] == t[2 * (i - 1)];
      }
      forall i | 1 <= i < |clips| - 1 ensures r[2 * i + 1] == gap {
        assert r[2 * i + 1] == t[2 * (i - 1) + 1];
      }
    }
  }
}
