/** The recipient loop of main (personalized_video.py:1822-1952): the optional name
    cache is filled for the de-duplicated names, then one personalized output is built
    per nonempty recipient name. A recipient whose build raises is reported as failed
    and the loop goes on; a `die()` ends the program. */
module Recipients {
  import opened Wrappers
  import opened Text
  import NameCache
  import Tiers

  /** What the loop reports for one recipient: the output it created, or the message of
      the exception its build raised. */
  datatype Entry = Created(name: string, outcome: Tiers.Outcome) | Failed(name: string, message: string)

  /** What all recipients share: the build options, the name cache settings and engine,
      whether the name cache is built, what the engine reports for the media of a given
      recipient, and the call of build_personalized_video with the run's fixed arguments,
      given a name and its cached clip, if any (see `Builds`). */
  datatype Run = Run(
    o: Tiers.Options, s: NameCache.Settings, e: NameCache.Engine,
    buildCache: bool, scenes: string -> Tiers.Scene,
    build: (string, Option<string>) -> Result<Tiers.Outcome>)

  /** The run's build is `Tiers.Build` under its options, settings, engine and media.
      The loop's own properties hold for any build; only the facts about the tiers
      themselves need this. */
  ghost predicate Builds(run: Run) {
    forall name, clip :: run.build(name, clip) == Tiers.Build(name, run.o, run.s, run.e, clip, run.scenes(name))
  }

  /** The files of the name cache directory and the `name_to_wav` dictionary. */
  datatype State = State(files: set<string>, clips: map<string, string>)

  /** The reports of the loop, the message of the `die()` that ended it early, if any,
      and the state it leaves. */
  datatype Log = Log(entries: seq<Entry>, stop: Option<string>, state: State)

  /** The cached clips are used: the cache is built and it is not a dry run
      (personalized_video.py:1825, :1895). */
  predicate CacheMode(run: Run) {
    run.buildCache && !run.o.dryRun
  }

  /** Every recorded clip is the cache file of its name. */
  predicate ClipsValid(clips: map<string, string>, run: Run) {
    forall n :: n in clips ==> clips[n] == NameCache.ClipFile(n, run.s, run.e)
  }

  /** The names the loop serves: each row stripped, the empty ones skipped, in order and
      with repetitions (personalized_video.py:1888-1891). */
  function Served(rows: seq<string>): seq<string> {
    if rows == [] then []
    else if Strip(rows[0]) == [] then Served(rows[1..])
    else [Strip(rows[0])] + Served(rows[1..])
  }

  function Names(entries: seq<Entry>): seq<string> {
    if entries == [] then [] else [entries[0].name] + Names(entries[1..])
  }

  // ---------------------------------------------------------------------------
  // One recipient (personalized_video.py:1892-1950)

  /** The clip handed to the build: none outside cache mode; else the recorded clip, or
      a clip ensured in the cache and recorded. */
  function ClipOf(name: string, run: Run, st: State): (Result<Option<string>>, State) {
    if !CacheMode(run) then (Ok(None), st)
    else if name in st.clips then (Ok(Some(st.clips[name])), st)
    else
      var (r, files) := NameCache.ClipStep(name, run.s, run.e, st.files);
      match r
      case Err(x) => (Err(x), State(files, st.clips))
      case Ok(f) => (Ok(Some(f)), State(files, st.clips[name := f]))
  }

  /** The body of the `try`: the clip, then build_personalized_video. */
  function Recipient(name: string, run: Run, st: State): (Result<Tiers.Outcome>, State) {
    var (clip, st1) := ClipOf(name, run, st);
    match clip
    case Err(x) => (Err(x), st1)
    case Ok(c) => (run.build(name, c), st1)
  }

  /** The whole loop: an exception is caught and reported, an exit ends everything. */
  function Generate(rows: seq<string>, run: Run, st: State): Log
    decreases |rows|
  {
    if rows == [] then Log([], None, st)
    else
      var name := Strip(rows[0]);
      if name == [] then Generate(rows[1..], run, st)
      else
        var (r, st1) := Recipient(name, run, st);
        if r.Err? && r.error.Exit? then Log([], Some(r.error.message), st1)
        else
          var entry := if r.Ok? then Created(name, r.value) else Failed(name, r.error.message);
          var rest := Generate(rows[1..], run, st1);
          Log([entry] + rest.entries, rest.stop, rest.state)
  }

  /** What one recipient gets when the other recipients are left out of account: its
      build with its own cache clip (in cache mode) or none. */
  function Alone(name: string, run: Run): Result<Tiers.Outcome> {
    run.build(name, if CacheMode(run) then Some(NameCache.ClipFile(name, run.s, run.e)) else None)
  }

  /** The result of one recipient is its result alone, except that in cache mode the
      synthesis of its missing clip can fail first. */
  predicate Isolated(name: string, r: Result<Tiers.Outcome>, run: Run) {
    r == Alone(name, run)
    || (CacheMode(run) && r.Err? && NameCache.Recording(run.s, run.e, run.e.render(name)) == Some(r.error))
  }

  lemma RecipientIsolated(name: string, run: Run, st: State)
    requires ClipsValid(st.clips, run)
    ensures Isolated(name, Recipient(name, run, st).0, run)
    ensures ClipsValid(Recipient(name, run, st).1.clips, run)
    ensures st.files <= Recipient(name, run, st).1.files
  {
    if CacheMode(run) && name !in st.clips {
      NameCache.ClipStepProperties(name, run.s, run.e, st.files);
    }
  }

  /** The entry reported for a recipient, read against its result alone. */
  predicate EntryIsolated(entry: Entry, run: Run) {
    match entry
    case Created(name, out) => Isolated(name, Ok(out), run)
    case Failed(name, msg) => Isolated(name, Err(Raised(msg)), run)
  }

  // ---------------------------------------------------------------------------
  // Properties of the loop

  /** Per-recipient isolation: every reported entry is what its recipient alone gives,
      or the failed synthesis of its own clip; the cache directory only grows and the
      recorded clips stay the cache files of their names. */
  lemma {:induction false} GenerateIsolated(rows: seq<string>, run: Run, st: State)
    requires ClipsValid(st.clips, run)
    ensures var g := Generate(rows, run, st);
      && (forall k :: 0 <= k < |g.entries| ==> EntryIsolated(g.entries[k], run))
      && st.files <= g.state.files
      && ClipsValid(g.state.clips, run)
    decreases |rows|
  {
    if rows != [] {
      var name := Strip(rows[0]);
      if name == [] {
        GenerateIsolated(rows[1..], run, st);
      } else {
        var (r, st1) := Recipient(name, run, st);
        RecipientIsolated(name, run, st);
        if !(r.Err? && r.error.Exit?) {
          GenerateIsolated(rows[1..], run, st1);
          var entry := if r.Ok? then Created(name, r.value) else Failed(name, r.error.message);
          assert EntryIsolated(entry, run);
        }
      }
    }
  }

  /** One entry per served name, in order: all of them when no exit ends the loop, and
      otherwise those before the recipient whose own result was the exit. */
  lemma GenerateServesAll(rows: seq<string>, run: Run, st: State)
    requires ClipsValid(st.clips, run)
    ensures var g := Generate(rows, run, st);
      && |g.entries| <= |Served(rows)|
      && Names(g.entries) == Served(rows)[..|g.entries|]
      && (g.stop.None? <==> |g.entries| == |Served(rows)|)
      && (g.stop.Some? ==> Isolated(Served(rows)[|g.entries|], Err(Exit(g.stop.value)), run))
  {
    GenerateNames(rows, run, st);
    GenerateStop(rows, run, st);
  }

  /** The entries name the served names in order, all of them exactly when no exit ends
      the loop. */
  lemma {:induction false} GenerateNames(rows: seq<string>, run: Run, st: State)
    ensures var g := Generate(rows, run, st);
      && |g.entries| <= |Served(rows)|
      && Names(g.entries) == Served(rows)[..|g.entries|]
      && (g.stop.None? <==> |g.entries| == |Served(rows)|)
    decreases |rows|
  {
    if rows != [] {
      var name := Strip(rows[0]);
      if name == [] {
        GenerateNames(rows[1..], run, st);
      } else {
        var (r, st1) := Recipient(name, run, st);
        if !(r.Err? && r.error.Exit?) {
          GenerateNames(rows[1..], run, st1);
          var entry := if r.Ok? then Created(name, r.value) else Failed(name, r.error.message);
          var rest := Generate(rows[1..], run, st1);
          assert Generate(rows, run, st).entries == [entry] + rest.entries;
          assert Names([entry] + rest.entries) == [name] + Names(rest.entries) by {
            assert ([entry] + rest.entries)[1..] == rest.entries;
          }
        }
      }
    }
  }

  /** An exit that ends the loop is the result alone of the next served recipient, or
      the failed synthesis of its own clip. */
  lemma {:induction false} GenerateStop(rows: seq<string>, run: Run, st: State)
    requires ClipsValid(st.clips, run)
    ensures var g := Generate(rows, run, st);
      g.stop.Some? ==> |g.entries| < |Served(rows)| && Isolated(Served(rows)[|g.entries|], Err(Exit(g.stop.value)), run)
    decreases |rows|
  {
    if rows != [] {
      var name := Strip(rows[0]);
      if name == [] {
        GenerateStop(rows[1..], run, st);
      } else {
        var (r, st1) := Recipient(name, run, st);
        RecipientIsolated(name, run, st);
        assert Served(rows) == [name] + Served(rows[1..]);
        if !(r.Err? && r.error.Exit?) {
          GenerateStop(rows[1..], run, st1);
          var entry := if r.Ok? then Created(name, r.value) else Failed(name, r.error.message);
          var rest := Generate(rows[1..], run, st1);
          assert Generate(rows, run, st).entries == [entry] + rest.entries;
          assert Generate(rows, run, st).stop == rest.stop;
          if rest.stop.Some? {
            assert Served(rows)[|rest.entries| + 1] == Served(rows[1..])[|rest.entries|];
          }
        } else {
          assert Generate(rows, run, st).entries == [];
          assert Generate(rows, run, st).stop == Some(r.error.message);
          assert Served(rows)[0] == name;
        }
      }
    }
  }

  /** The entry reported for a recipient is exactly its result alone. */
  predicate EntryAlone(entry: Entry, run: Run) {
    match entry
    case Created(name, out) => Alone(name, run) == Ok(out)
    case Failed(name, msg) => Alone(name, run) == Err(Raised(msg))
  }

  /** The served names are the nonempty stripped rows. */
  lemma {:induction false} ServedMembers(rows: seq<string>)
    ensures forall n :: n in Served(rows) <==> n != [] && exists k :: 0 <= k < |rows| && Strip(rows[k]) == n
    decreases |rows|
  {
    if rows != [] {
      ServedMembers(rows[1..]);
      assert forall k :: 1 <= k < |rows| ==> rows[1..][k - 1] == rows[k];
      forall n | n != [] && exists k :: 0 <= k < |rows| && Strip(rows[k]) == n ensures n in Served(rows) {
        var k :| 0 <= k < |rows| && Strip(rows[k]) == n;
        if k > 0 {
          assert Strip(rows[1..][k - 1]) == n;
        }
      }
    }
  }

  /** Every served name's clip is recorded, as the cache filling leaves it. */
  predicate Filled(rows: seq<string>, run: Run, st: State) {
    CacheMode(run) && ClipsValid(st.clips, run) && forall n :: n in Served(rows) ==> n in st.clips
  }

  lemma FilledTail(rows: seq<string>, run: Run, st: State)
    requires rows != [] && Filled(rows, run, st)
    ensures Filled(rows[1..], run, st)
    ensures Strip(rows[0]) != [] ==> Served(rows) == [Strip(rows[0])] + Served(rows[1..])
    ensures Strip(rows[0]) != [] ==> Recipient(Strip(rows[0]), run, st) == (Alone(Strip(rows[0]), run), st)
  {
    if Strip(rows[0]) != [] {
      RecipientFilled(Strip(rows[0]), run, st);
    }
  }

  /** With every served name's clip recorded the loop synthesizes nothing and leaves the
      state as it is. */
  lemma {:induction false} FilledKeepsState(rows: seq<string>, run: Run, st: State)
    requires Filled(rows, run, st)
    ensures Generate(rows, run, st).state == st
    decreases |rows|
  {
    if rows != [] {
      FilledTail(rows, run, st);
      FilledKeepsState(rows[1..], run, st);
    }
  }

  /** With every served name's clip recorded, every entry is exactly its recipient's
      result alone. */
  lemma {:induction false} FilledEntriesAlone(rows: seq<string>, run: Run, st: State)
    requires Filled(rows, run, st)
    ensures forall k :: 0 <= k < |Generate(rows, run, st).entries| ==> EntryAlone(Generate(rows, run, st).entries[k], run)
    decreases |rows|
  {
    if rows != [] {
      FilledTail(rows, run, st);
      FilledEntriesAlone(rows[1..], run, st);
      var name := Strip(rows[0]);
      if name != [] {
        var r := Alone(name, run);
        if !(r.Err? && r.error.Exit?) {
          var entry := if r.Ok? then Created(name, r.value) else Failed(name, r.error.message);
          assert EntryAlone(entry, run);
        }
      }
    }
  }

  /** With every served name's clip recorded, a loop that ends early ends at the
      recipient whose result alone is that exit. */
  lemma {:induction false} FilledStopAlone(rows: seq<string>, run: Run, st: State)
    requires Filled(rows, run, st)
    ensures var g := Generate(rows, run, st);
      g.stop.Some? ==> |g.entries| < |Served(rows)| && Alone(Served(rows)[|g.entries|], run) == Err(Exit(g.stop.value))
    decreases |rows|
  {
    if rows != [] {
      FilledTail(rows, run, st);
      FilledStopAlone(rows[1..], run, st);
      var name := Strip(rows[0]);
      if name != [] {
        var r := Alone(name, run);
        var g, rest := Generate(rows, run, st), Generate(rows[1..], run, st);
        if r.Err? && r.error.Exit? {
          assert g.entries == [] && g.stop == Some(r.error.message);
          assert Served(rows)[0] == name;
        } else {
          assert |g.entries| == 1 + |rest.entries| && g.stop == rest.stop;
          assert rest.stop.Some? ==> Served(rows)[|g.entries|] == Served(rows[1..])[|rest.entries|];
        }
      }
    }
  }

  lemma RecipientFilled(name: string, run: Run, st: State)
    requires CacheMode(run) && ClipsValid(st.clips, run) && name in st.clips
    ensures Recipient(name, run, st) == (Alone(name, run), st)
  {
  }

  /** A dry run reports every served name as created, with no plan. */
  lemma {:induction false} DryRunCreatesAll(rows: seq<string>, run: Run, st: State)
    requires run.o.dryRun && Builds(run)
    ensures var g := Generate(rows, run, st);
      && g.stop.None? && |g.entries| == |Served(rows)|
      && forall k :: 0 <= k < |g.entries| ==> g.entries[k].Created? && g.entries[k].outcome.plan.None?
    decreases |rows|
  {
    if rows != [] {
      var name := Strip(rows[0]);
      if name != [] {
        DryRunRecipient(name, run, st);
        var entry := Created(name, Recipient(name, run, st).0.value);
        var rest := Generate(rows[1..], run, st);
        DryRunCreatesAll(rows[1..], run, st);
        assert Generate(rows, run, st).entries == [entry] + rest.entries;
      } else {
        DryRunCreatesAll(rows[1..], run, st);
      }
    }
  }

  lemma DryRunRecipient(name: string, run: Run, st: State)
    requires run.o.dryRun && Builds(run)
    ensures Recipient(name, run, st).1 == st
    ensures Recipient(name, run, st).0.Ok? && Recipient(name, run, st).0.value.plan.None?
  {
    Tiers.BuildOutputName(name, run.o, run.s, run.e, None, run.scenes(name));
  }

  // ---------------------------------------------------------------------------
  // The loop itself

  /** The entries `done` so far followed by what the rest of the loop gives. */
  function After(done: seq<Entry>, g: Log): Log {
    Log(done + g.entries, g.stop, g.state)
  }

  /** The `for _, row in df.iterrows()` loop over the cache directory `dir` and the
      dictionary `clips0` (personalized_video.py:1887-1952). */
  method GenerateAll(rows: seq<string>, run: Run, dir: NameCache.CacheDir, clips0: map<string, string>)
    returns (entries: seq<Entry>, stop: Option<string>, clips: map<string, string>)
    modifies dir
    ensures Log(entries, stop, State(dir.files, clips)) == Generate(rows, run, State(old(dir.files), clips0))
  {
    entries, stop, clips := [], None, clips0;
    for i := 0 to |rows|
      invariant After(entries, Generate(rows[i..], run, State(dir.files, clips)))
             == Generate(rows, run, State(old(dir.files), clips0))
    {
      assert rows[i..][1..] == rows[i + 1..];
      var name := Strip(rows[i]);
      if name == [] {
        continue;
      }
      var r;
      r, clips := Serve(name, run, dir, clips);
      if r.Err? && r.error.Exit? {
        return entries, Some(r.error.message), clips;
      }
      var entry := if r.Ok? then Created(name, r.value) else Failed(name, r.error.message);
      entries := entries + [entry];
    }
    assert rows[|rows|..] == [];
  }

  /** The `try` body for one recipient. */
  method Serve(name: string, run: Run, dir: NameCache.CacheDir, clips0: map<string, string>)
    returns (r: Result<Tiers.Outcome>, clips: map<string, string>)
    modifies dir
    ensures (r, State(dir.files, clips)) == Recipient(name, run, State(old(dir.files), clips0))
  {
    clips := clips0;
    var clip: Option<string> := None;
    if CacheMode(run) {
      if name in clips {
        clip := Some(clips[name]);
      } else {
        var made := dir.EnsureClip(name, run.s, run.e);
        if made.Err? {
          return Err(made.error), clips;
        }
        clip := Some(made.value);
        clips := clips[name := made.value];
      }
    }
    r := run.build(name, clip);
  }

  // ---------------------------------------------------------------------------
  // The run (main, personalized_video.py:1822-1952)

  /** main after the argument checks: in cache mode the de-duplicated names get their
      clips first, the batch taking part when `batch` is set and the provider can speak,
      and then, when `master` gives the gap of a names master, the master is built; a
      failure there is not caught and ends the program. Then the recipient loop. */
  method GenerateVideos(rows: seq<string>, run: Run, dir: NameCache.CacheDir, batch: bool, db: real, dur: real, hint: string,
                        master: Option<real>)
    returns (entries: seq<Entry>, stop: Option<Error>)
    modifies dir
    ensures old(dir.files) <= dir.files
    ensures CacheMode(run) ==>
      dir.files <= old(dir.files) + NameCache.ClipSet(NameCache.UniqueNames(rows), run.s, run.e)
                   + (if master.Some? then {NameCache.SilenceFile(master.value)} else {})
    ensures CacheMode(run) && master.Some? && stop.None? ==> NameCache.SilenceFile(master.value) in dir.files
    ensures forall k :: 0 <= k < |entries| ==> EntryIsolated(entries[k], run)
    ensures CacheMode(run) ==> forall k :: 0 <= k < |entries| ==> EntryAlone(entries[k], run)
    ensures stop.None? ==> Names(entries) == Served(rows)
    ensures stop.Some? && stop.value.Raised? ==> CacheMode(run) && entries == []
    ensures !CacheMode(run) ==> dir.files == old(dir.files)
  {
    var clips: map<string, string> := map[];
    if CacheMode(run) {
      var unique := NameCache.Dedup(rows);
      var filled := dir.FillCache(unique, run.s, run.e, batch, db, dur, hint);
      if filled.Err? {
        return [], Some(filled.error);
      }
      clips := filled.value;
      if master.Some? {
        var failure := dir.NamesMaster(unique, clips, master.value, run.e);
        if failure.Some? {
          return [], failure;
        }
      }
      NameCache.UniqueNamesMembers(rows);
      ServedMembers(rows);
    }
    ghost var st := State(dir.files, clips);
    var message;
    entries, message, clips := GenerateAll(rows, run, dir, clips);
    LoopFacts(rows, run, st);
    stop := if message.Some? then Some(Exit(message.value)) else None;
  }

  /** What the run needs of the loop, from the state the cache filling leaves. */
  lemma LoopFacts(rows: seq<string>, run: Run, st: State)
    requires ClipsValid(st.clips, run)
    requires CacheMode(run) ==> forall n :: n in Served(rows) ==> n in st.clips
    ensures var g := Generate(rows, run, st);
      && st.files <= g.state.files
      && (forall k :: 0 <= k < |g.entries| ==> EntryIsolated(g.entries[k], run))
      && (CacheMode(run) ==> forall k :: 0 <= k < |g.entries| ==> EntryAlone(g.entries[k], run))
      && (g.stop.None? ==> Names(g.entries) == Served(rows))
      && g.state == st
  {
    GenerateIsolated(rows, run, st);
    GenerateServesAll(rows, run, st);
    if CacheMode(run) {
      FilledEntriesAlone(rows, run, st);
      FilledKeepsState(rows, run, st);
    } else {
      PlainKeepsState(rows, run, st);
    }
  }

  /** Outside cache mode the loop touches neither the cache nor the dictionary. */
  lemma {:induction false} PlainKeepsState(rows: seq<string>, run: Run, st: State)
    requires !CacheMode(run)
    ensures Generate(rows, run, st).state == st
    decreases |rows|
  {
    if rows != [] {
      PlainKeepsState(rows[1..], run, st);
    }
  }
}
