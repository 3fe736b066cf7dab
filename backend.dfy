/** The job service of backend/app.py: create_job checks a submitted form and queues a
    job; run_pipeline resolves the job's options (the tier alias, lip-sync gating, the
    ElevenLabs voice identity and the boolean flags), runs the personalized video
    program and records the job's status. Files, uploads, the subprocess and the
    network clone are the inputs of a `Services` value. */
module Backend {
  import opened Wrappers
  import opened Text

  // ---------------------------------------------------------------------------
  // Tier aliasing and lip-sync gating (backend/app.py:110-113, :155-156)

  const DefaultMode := "silver"

  function NotImplemented(mode: string): string {
    "insert_mode=" + mode + " is not implemented yet."
  }

  /** The tier the program is run with for a requested tier. */
  function ResolveMode(requested: string): Result<string> {
    var mode := if requested == "diamond" || requested == "platinum" then "gold" else requested;
    if mode != "silver" && mode != "gold" then Err(Raised(NotImplemented(mode))) else Ok(mode)
  }

  /** Diamond and platinum run as gold; silver and gold run as themselves; every other
      tier fails the job, naming the tier. */
  lemma ResolveModeProperties(requested: string)
    ensures ResolveMode(requested).Ok? <==>
      requested in ["silver", "gold", "diamond", "platinum"]
    ensures ResolveMode(requested).Ok? ==> ResolveMode(requested).value in ["silver", "gold"]
    ensures requested == "diamond" || requested == "platinum" ==> ResolveMode(requested) == Ok("gold")
    ensures requested == "silver" || requested == "gold" ==> ResolveMode(requested) == Ok(requested)
    ensures ResolveMode(requested).Err? ==> ResolveMode(requested) == Err(Raised(NotImplemented(requested)))
  {
  }

  /** The lip-sync provider the program is run with. */
  function LipSyncGate(requested: string, provider: string): string {
    if requested != "diamond" && requested != "platinum" then "none" else provider
  }

  /** Lip sync is kept exactly for the diamond and platinum tiers, and so only ever
      reaches the program together with the gold tier. */
  lemma LipSyncGateProperties(requested: string, provider: string)
    ensures LipSyncGate(requested, provider) == provider <==>
      requested == "diamond" || requested == "platinum" || provider == "none"
    ensures LipSyncGate(requested, provider) != provider ==> LipSyncGate(requested, provider) == "none"
    ensures LipSyncGate(requested, provider) != "none" ==> ResolveMode(requested) == Ok("gold")
  {
  }

  // ---------------------------------------------------------------------------
  // Flags (backend/app.py:243-247)

  /** One of each pair of boolean flags. */
  function Toggles(batch: bool, natural: bool, requested: string): seq<string> {
    [ if batch then "--batch-name-tts" else "--no-batch-name-tts",
      if natural then "--diamond-natural-name" else "--no-diamond-natural-name",
      if requested == "platinum" then "--platinum-mode" else "--no-platinum-mode" ]
  }

  /** The voice sample argument, given only for a nonempty sample path. */
  function VoiceArgs(sample: string): seq<string> {
    if sample != "" then ["--voice-sample", sample] else []
  }

  /** The `cmd.append` and `cmd +=` steps after the fixed arguments. */
  method AppendFlags(cmd: seq<string>, batch: bool, natural: bool, requested: string, sample: string)
    returns (out: seq<string>)
    ensures out == cmd + Toggles(batch, natural, requested) + VoiceArgs(sample)
  {
    out := cmd;
    out := out + [if batch then "--batch-name-tts" else "--no-batch-name-tts"];
    out := out + [if natural then "--diamond-natural-name" else "--no-diamond-natural-name"];
    out := out + [if requested == "platinum" then "--platinum-mode" else "--no-platinum-mode"];
    if sample != "" {
      out := out + ["--voice-sample", sample];
    }
  }

  /** Each boolean option emits exactly one of its two flags, the platinum flag exactly
      for a requested platinum tier, and the voice sample exactly when there is one. */
  lemma FlagsProperties(batch: bool, natural: bool, requested: string, sample: string)
    ensures var t := Toggles(batch, natural, requested);
      && ("--batch-name-tts" in t <==> batch) && ("--no-batch-name-tts" in t <==> !batch)
      && ("--diamond-natural-name" in t <==> natural) && ("--no-diamond-natural-name" in t <==> !natural)
      && ("--platinum-mode" in t <==> requested == "platinum")
      && ("--no-platinum-mode" in t <==> requested != "platinum")
    ensures "--voice-sample" in Toggles(batch, natural, requested) + VoiceArgs(sample) <==> sample != ""
  {
    var t := Toggles(batch, natural, requested);
    // The seven flags have seven different lengths.
    assert |t[0]| in {16, 19} && |t[1]| in {22, 25} && |t[2]| in {15, 18};
    FlagIn("--batch-name-tts", t);
    FlagIn("--no-batch-name-tts", t);
    FlagIn("--diamond-natural-name", t);
    FlagIn("--no-diamond-natural-name", t);
    FlagIn("--platinum-mode", t);
    FlagIn("--no-platinum-mode", t);
    FlagIn("--voice-sample", t);
    var f := t + VoiceArgs(sample);
    assert "--voice-sample" in f <==> "--voice-sample" in t || "--voice-sample" in VoiceArgs(sample);
  }

  lemma FlagIn(x: string, t: seq<string>)
    requires |t| == 3
    ensures x in t <==> x == t[0] || x == t[1] || x == t[2]
  {
  }

  // ---------------------------------------------------------------------------
  // ElevenLabs voice identity (backend/app.py:158-182)

  const DefaultModel := "eleven_multilingual_v2"

  /** A voice cache entry; an empty string stands for a missing or empty value. */
  datatype VoiceEntry = VoiceEntry(voiceId: string, modelId: string, samplePath: string)

  /** The voice and model ids the program is run with; "" when there is none. */
  datatype Voice = Voice(voiceId: string, modelId: string)

  /** A sample hash names a usable entry when its entry has a voice id. */
  predicate Hit(entries: map<string, VoiceEntry>, hash: string) {
    hash in entries && entries[hash].voiceId != ""
  }

  /** The voice for a sample: the cached voice id (with the cached model when none is
      given), or a freshly cloned voice recorded under the sample hash. */
  function Lookup(entries: map<string, VoiceEntry>, hash: string, givenModel: string, path: string, clone: Result<string>)
    : (Result<Voice>, map<string, VoiceEntry>)
  {
    if Hit(entries, hash) then
      var c := entries[hash];
      (Ok(Voice(c.voiceId, if givenModel == "" then c.modelId else givenModel)), entries)
    else
      match clone
      case Err(x) => (Err(x), entries)
      case Ok(id) =>
        (Ok(Voice(id, givenModel)),
         entries[hash := VoiceEntry(id, if givenModel == "" then DefaultModel else givenModel, path)])
  }

  /** A hit uses the cached voice id, takes the cached model id only when none was
      given, and leaves the cache as it is. */
  lemma LookupHit(entries: map<string, VoiceEntry>, hash: string, givenModel: string, path: string, clone: Result<string>)
    requires Hit(entries, hash)
    ensures var (r, after) := Lookup(entries, hash, givenModel, path, clone);
      && after == entries
      && r.Ok? && r.value.voiceId == entries[hash].voiceId
      && (givenModel != "" ==> r.value.modelId == givenModel)
      && (givenModel == "" ==> r.value.modelId == entries[hash].modelId)
  {
  }

  /** A miss clones the voice and adds exactly the one entry under the sample hash,
      with the given model id or the default one; every other entry is unchanged. A
      failed clone changes nothing. */
  lemma LookupMiss(entries: map<string, VoiceEntry>, hash: string, givenModel: string, path: string, clone: Result<string>)
    requires !Hit(entries, hash)
    ensures var (r, after) := Lookup(entries, hash, givenModel, path, clone);
      && (clone.Err? ==> r == Err(clone.error) && after == entries)
      && (clone.Ok? ==>
        && r == Ok(Voice(clone.value, givenModel))
        && after.Keys == entries.Keys + {hash}
        && after[hash].voiceId == clone.value
        && after[hash].modelId == (if givenModel == "" then DefaultModel else givenModel)
        && after[hash].samplePath == path
        && forall h :: h in entries && h != hash ==> after[h] == entries[h])
  {
  }

  /** The voice cache dictionary, updated in place. */
  class VoiceCache {
    var entries: map<string, VoiceEntry>

    constructor(loaded: map<string, VoiceEntry>)
      ensures entries == loaded
    {
      entries := loaded;
    }

    /** The lookup-or-insert of backend/app.py:163-181. */
    method Resolve(hash: string, givenModel: string, path: string, clone: Result<string>) returns (r: Result<Voice>)
      modifies this
      ensures (r, entries) == Lookup(old(entries), hash, givenModel, path, clone)
    {
      if hash in entries && entries[hash].voiceId != "" {
        var cached := entries[hash];
        var model := if givenModel == "" then cached.modelId else givenModel;
        return Ok(Voice(cached.voiceId, model));
      }
      if clone.Err? {
        return Err(clone.error);
      }
      var model := if givenModel == "" then DefaultModel else givenModel;
      entries := entries[hash := VoiceEntry(clone.value, model, path)];
      return Ok(Voice(clone.value, givenModel));
    }
  }

  // ---------------------------------------------------------------------------
  // Job options and the program run (run_pipeline, backend/app.py:99-263)

  /** The stored options of a job; a missing key is `None`. */
  datatype Options = Options(
    insertMode: Option<string>, ttsProvider: Option<string>, lipSync: Option<string>,
    voiceSamplePath: Option<string>, voiceId: Option<string>, modelId: Option<string>,
    batchNameTts: Option<bool>, diamondNatural: Option<bool>, convertMov: Option<bool>)

  /** What the program is run with, as far as the options resolve it. */
  datatype Invocation = Invocation(
    mode: string, lipSync: string, ttsProvider: string, voice: Voice, flags: seq<string>)

  /** What the outside world answers: whether the base video is a `.mov`, the failure
      of its conversion, the hash of a sample file, the voice clone, and the exit code
      and output of the program. */
  datatype Services = Services(
    baseIsMov: bool, convertFailure: Option<string>,
    hash: string -> string, clone: Result<string>,
    returnCode: int, stdout: string, stderr: string)

  const NoVoiceSample := "ElevenLabs selected but no voice_sample was provided."
  const NoOutput := "No subprocess output."

  /** The last `n` characters of `s` (Python's `s[-n:]`). */
  function Tail(s: string, n: nat): (r: string)
    ensures |r| <= n && |r| <= |s| && r == s[|s| - |r|..]
    ensures |s| <= n ==> r == s
  {
    if |s| <= n then s else s[|s| - n..]
  }

  /** The message of a failed program run (backend/app.py:250-254). */
  function RunFailure(stdout: string, stderr: string): string {
    var err := Tail(Strip(stderr), 4000);
    var out := Tail(Strip(stdout), 1500);
    "personalized_video.py failed:\n" + (if err != "" then err else if out != "" then out else NoOutput)
  }

  /** The steps of the `try` before the program runs (backend/app.py:110-182): the
      invocation, or the error that fails the job, and the voice cache after them. */
  function Prepare(opts: Options, cache: map<string, VoiceEntry>, svc: Services): (Result<Invocation>, map<string, VoiceEntry>) {
    var requested := opts.insertMode.GetOr(DefaultMode);
    match ResolveMode(requested)
    case Err(x) => (Err(x), cache)
    case Ok(mode) =>
      if opts.convertMov.GetOr(false) && svc.baseIsMov && svc.convertFailure.Some? then
        (Err(Raised(svc.convertFailure.value)), cache)
      else
        var tts := opts.ttsProvider.GetOr("gtts");
        var lip := LipSyncGate(requested, opts.lipSync.GetOr("none"));
        var sample := opts.voiceSamplePath.GetOr("");
        var flags := Toggles(opts.batchNameTts.GetOr(true), opts.diamondNatural.GetOr(false), requested) + VoiceArgs(sample);
        var given := Voice(opts.voiceId.GetOr(""), opts.modelId.GetOr(""));
        if tts != "elevenlabs" then (Ok(Invocation(mode, lip, tts, given, flags)), cache)
        else if sample == "" then (Err(Raised(NoVoiceSample)), cache)
        else
          var (v, after) := Lookup(cache, svc.hash(sample), given.modelId, sample, svc.clone);
          match v
          case Err(x) => (Err(x), after)
          case Ok(voice) => (Ok(Invocation(mode, lip, tts, voice, flags)), after)
  }

  /** The status of a job. */
  datatype Status = Queued | Running | Done(zip: string) | Failed(error: string)

  /** The status the job ends with (backend/app.py:249-263). */
  function Final(prep: Result<Invocation>, svc: Services, zip: string): Status {
    match prep
    case Err(x) => Failed(x.message)
    case Ok(_) => if svc.returnCode != 0 then Failed(RunFailure(svc.stdout, svc.stderr)) else Done(zip)
  }

  /** A prepared invocation runs the resolved tier, with lip sync only for diamond and
      platinum requests; an unknown tier fails before anything else and leaves the
      voice cache alone; the cache changes at most under the hash of the job's sample,
      and only for ElevenLabs. */
  lemma PrepareProperties(opts: Options, cache: map<string, VoiceEntry>, svc: Services)
    ensures var (r, after) := Prepare(opts, cache, svc);
      var requested := opts.insertMode.GetOr(DefaultMode);
      && (r.Ok? ==> Ok(r.value.mode) == ResolveMode(requested))
      && (r.Ok? ==> r.value.lipSync == LipSyncGate(requested, opts.lipSync.GetOr("none")))
      && (ResolveMode(requested).Err? ==> r == ResolveMode(requested).PropagateFailure() && after == cache)
      && (opts.ttsProvider.GetOr("gtts") != "elevenlabs" ==> after == cache)
      && after.Keys <= cache.Keys + {svc.hash(opts.voiceSamplePath.GetOr(""))}
      && (forall h :: h in cache && h != svc.hash(opts.voiceSamplePath.GetOr("")) ==> after[h] == cache[h])
  {
    var requested := opts.insertMode.GetOr(DefaultMode);
    var sample := opts.voiceSamplePath.GetOr("");
    var model := opts.modelId.GetOr("");
    if !Hit(cache, svc.hash(sample)) {
      LookupMiss(cache, svc.hash(sample), model, sample, svc.clone);
    }
  }

  /** A job ends done with its archive exactly when its options prepare and the
      program exits with 0, and failed otherwise. */
  lemma FinalProperties(prep: Result<Invocation>, svc: Services, zip: string)
    ensures Final(prep, svc, zip).Done? || Final(prep, svc, zip).Failed?
    ensures Final(prep, svc, zip) == Done(zip) <==> prep.Ok? && svc.returnCode == 0
    ensures prep.Err? ==> Final(prep, svc, zip) == Failed(prep.error.message)
    ensures prep.Ok? && svc.returnCode != 0 ==>
      Final(prep, svc, zip).error[..|"personalized_video.py failed:\n"|] == "personalized_video.py failed:\n"
  {
  }

  // ---------------------------------------------------------------------------
  // The job store (backend/jobs.py, as a map from job id to job)

  datatype Job = Job(status: Status, options: Options)

  class JobStore {
    var jobs: map<string, Job>

    constructor()
      ensures jobs == map[]
    {
      jobs := map[];
    }

    /** A new job is queued; an id already in use is refused by the table's key. */
    method Create(id: string, options: Options) returns (r: Result<bool>)
      modifies this
      ensures id in old(jobs) ==> r.Err? && jobs == old(jobs)
      ensures id !in old(jobs) ==> r == Ok(true) && jobs == old(jobs)[id := Job(Queued, options)]
    {
      if id in jobs {
        return Err(Raised("UNIQUE constraint failed: jobs.id"));
      }
      jobs := jobs[id := Job(Queued, options)];
      return Ok(true);
    }

    /** The row of a job, when there is one. */
    function Get(id: string): Option<Job>
      reads this
    {
      if id in jobs then Some(jobs[id]) else None
    }

    /** An update of a missing job changes nothing. */
    method UpdateStatus(id: string, status: Status)
      modifies this
      ensures jobs == if id in old(jobs) then old(jobs)[id := old(jobs)[id].(status := status)] else old(jobs)
    {
      if id in jobs {
        jobs := jobs[id := jobs[id].(status := status)];
      }
    }
  }

  /** The option steps of run_pipeline over the voice cache. */
  method PrepareJob(opts: Options, cache: VoiceCache, svc: Services) returns (r: Result<Invocation>)
    modifies cache
    ensures (r, cache.entries) == Prepare(opts, old(cache.entries), svc)
  {
    var requested := opts.insertMode.GetOr(DefaultMode);
    var mode := ResolveMode(requested);
    if mode.Err? {
      return Err(mode.error);
    }
    if opts.convertMov.GetOr(false) && svc.baseIsMov && svc.convertFailure.Some? {
      return Err(Raised(svc.convertFailure.value));
    }
    var tts := opts.ttsProvider.GetOr("gtts");
    var lip := LipSyncGate(requested, opts.lipSync.GetOr("none"));
    var sample := opts.voiceSamplePath.GetOr("");
    var voice := Voice(opts.voiceId.GetOr(""), opts.modelId.GetOr(""));
    if tts == "elevenlabs" {
      if sample == "" {
        return Err(Raised(NoVoiceSample));
      }
      var found := cache.Resolve(svc.hash(sample), voice.modelId, sample, svc.clone);
      if found.Err? {
        return Err(found.error);
      }
      voice := found.value;
    }
    var flags := AppendFlags([], opts.batchNameTts.GetOr(true), opts.diamondNatural.GetOr(false), requested, sample);
    assert flags == Toggles(opts.batchNameTts.GetOr(true), opts.diamondNatural.GetOr(false), requested) + VoiceArgs(sample);
    return Ok(Invocation(mode.value, lip, tts, voice, flags));
  }

  /** run_pipeline: a job that is not stored is left alone; otherwise it is set running
      and then to exactly one final status, done with the archive or failed with the
      error's message. `updates` lists the statuses set, in order. */
  method RunPipeline(id: string, store: JobStore, cache: VoiceCache, svc: Services, zip: string)
    returns (updates: seq<Status>)
    modifies store, cache
    ensures id !in old(store.jobs) ==>
      updates == [] && store.jobs == old(store.jobs) && cache.entries == old(cache.entries)
    ensures id in old(store.jobs) ==>
      var (prep, after) := Prepare(old(store.jobs)[id].options, old(cache.entries), svc);
      && updates == [Running, Final(prep, svc, zip)]
      && cache.entries == after
      && store.jobs == old(store.jobs)[id := old(store.jobs)[id].(status := Final(prep, svc, zip))]
  {
    var job := store.Get(id);
    if job.None? {
      return [];
    }
    store.UpdateStatus(id, Running);
    updates := [Running];
    var prep := PrepareJob(job.value.options, cache, svc);
    var status := Final(prep, svc, zip);
    store.UpdateStatus(id, status);
    updates := updates + [status];
  }

  // ---------------------------------------------------------------------------
  // create_job (backend/app.py:266-372)

  /** The fields of the submitted form that the checks and the pipeline read. */
  datatype Form = Form(
    insertMode: string, ttsProvider: string, lipSync: string,
    wav2lipRepo: string, wav2lipCheckpoint: string, placeholders: string,
    voiceId: string, modelId: string, batchNameTts: bool, diamondNatural: bool, convertMov: bool)

  /** The WAV2LIP_REPO and WAV2LIP_CHECKPOINT environment variables ("" when unset),
      and which paths exist and which repositories hold an `inference.py`. */
  datatype Host = Host(envRepo: string, envCheckpoint: string, present: string -> bool, hasInference: string -> bool)

  const VoiceRequired := "voice_sample is required when tts_provider=elevenlabs"
  const RepoRequired := "wav2lip_repo is required when Diamond + Wav2Lip is selected"
  const CheckpointRequired := "wav2lip_checkpoint is required when Diamond + Wav2Lip is selected"
  const PlaceholdersRequired := "platinum_placeholders is required for platinum tier"

  /** A form value, else the environment's (Python's `a or b`), stripped. */
  function Setting(given: string, env: string): string {
    Strip(if given != "" then given else env)
  }

  /** The Wav2Lip checks of diamond and platinum with lip sync (backend/app.py:320-334). */
  function Wav2LipCheck(f: Form, host: Host): Option<string> {
    var repo := Setting(f.wav2lipRepo, host.envRepo);
    var ckpt := Setting(f.wav2lipCheckpoint, host.envCheckpoint);
    if repo == "" then Some(RepoRequired)
    else if ckpt == "" then Some(CheckpointRequired)
    else if !host.present(repo) then Some("wav2lip_repo not found: " + repo)
    else if !host.hasInference(repo) then Some("Wav2Lip inference.py not found in repo: " + repo)
    else if !host.present(ckpt) then Some("wav2lip_checkpoint not found: " + ckpt)
    else None
  }

  /** The HTTP 400 detail a form is refused with, or none (backend/app.py:318-336). */
  function ValidateJob(f: Form, voiceUploaded: bool, host: Host): Option<string> {
    if f.ttsProvider == "elevenlabs" && !voiceUploaded then Some(VoiceRequired)
    else if (f.insertMode == "diamond" || f.insertMode == "platinum") && f.lipSync == "wav2lip" && Wav2LipCheck(f, host).Some? then
      Wav2LipCheck(f, host)
    else if f.insertMode == "platinum" && Strip(f.placeholders) == "" then Some(PlaceholdersRequired)
    else None
  }

  /** A form is accepted exactly when: ElevenLabs comes with a voice sample; diamond or
      platinum with Wav2Lip has a repository with `inference.py` and a checkpoint,
      both found; and platinum has a placeholder that is not blank. */
  lemma ValidateJobProperties(f: Form, voiceUploaded: bool, host: Host)
    ensures f.ttsProvider == "elevenlabs" && !voiceUploaded ==> ValidateJob(f, voiceUploaded, host) == Some(VoiceRequired)
    ensures f.insertMode == "platinum" && Strip(f.placeholders) == "" ==> ValidateJob(f, voiceUploaded, host).Some?
    ensures ValidateJob(f, voiceUploaded, host).None? <==>
      && (f.ttsProvider == "elevenlabs" ==> voiceUploaded)
      && ((f.insertMode == "diamond" || f.insertMode == "platinum") && f.lipSync == "wav2lip" ==>
        var repo := Setting(f.wav2lipRepo, host.envRepo);
        var ckpt := Setting(f.wav2lipCheckpoint, host.envCheckpoint);
        repo != "" && ckpt != "" && host.present(repo) && host.hasInference(repo) && host.present(ckpt))
      && (f.insertMode == "platinum" ==> Strip(f.placeholders) != "")
  {
  }

  /** The options dictionary create_job stores; the sample path only when a sample was
      uploaded (backend/app.py:338-368). */
  function JobOptions(f: Form, voicePath: Option<string>): Options {
    Options(Some(f.insertMode), Some(f.ttsProvider), Some(f.lipSync), voicePath,
      Some(f.voiceId), Some(f.modelId), Some(f.batchNameTts), Some(f.diamondNatural), Some(f.convertMov))
  }

  /** create_job: the checks, then a queued job under `id`. The id has one-second
      resolution (backend/app.py:71-74), so a second form in the same second reuses an id
      and is refused by the table's key, with no job stored. */
  method CreateJob(store: JobStore, id: string, f: Form, voicePath: Option<string>, host: Host)
    returns (r: Result<bool>)
    modifies store
    ensures ValidateJob(f, voicePath.Some?, host).Some? ==>
      r == Err(Raised(ValidateJob(f, voicePath.Some?, host).value)) && store.jobs == old(store.jobs)
    ensures ValidateJob(f, voicePath.Some?, host).None? && id !in old(store.jobs) ==>
      r.Ok? && store.jobs == old(store.jobs)[id := Job(Queued, JobOptions(f, voicePath))]
    ensures ValidateJob(f, voicePath.Some?, host).None? && id in old(store.jobs) ==>
      r.Err? && store.jobs == old(store.jobs)
  {
    var refused := ValidateJob(f, voicePath.Some?, host);
    if refused.Some? {
      return Err(Raised(refused.value));
    }
    r := store.Create(id, JobOptions(f, voicePath));
  }

  /** An accepted ElevenLabs job with a nonempty sample path never fails for a missing
      voice sample when it runs: it fails only for its tier, its conversion or the
      voice clone. */
  lemma AcceptedElevenLabsHasSample(f: Form, path: string, host: Host, cache: map<string, VoiceEntry>, svc: Services)
    requires path != ""
    requires f.ttsProvider == "elevenlabs"
    requires ValidateJob(f, true, host).None?
    ensures Prepare(JobOptions(f, Some(path)), cache, svc).0.Err? ==>
      || ResolveMode(f.insertMode).Err?
      || (f.convertMov && svc.baseIsMov && svc.convertFailure.Some?)
      || (!Hit(cache, svc.hash(path)) && svc.clone.Err?)
  {
  }
}
