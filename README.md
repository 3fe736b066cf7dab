# Personalized video pipeline, modelled in Dafny

The system takes one base recording that says a generic name, such as "Hi there, ...".
For each recipient in a list it produces a copy with the recipient's own name spoken in
place of that generic word. A text-to-speech (TTS) engine speaks the name, and the
audio engine (ffmpeg) splices it in with one of four tiers:

- **silver**: audio only; the name replaces the first speech segment.
- **gold**: the name is time-stretched into that first segment; the frame length is kept.
- **diamond**: the name is spoken at its natural pace inside the first segment.
- **platinum**: the name replaces every short placeholder segment of the track, one per
  placeholder word.

An optional Wav2Lip pass re-syncs the lips. Clips of names are cached on disk under a
key built from every setting that affects the voice. The cache can be filled by one
batch synthesis that is split on silences, with a per-name fallback. A small web
backend queues jobs, checks each submitted form, maps the web tiers onto the program's
modes, reuses cloned ElevenLabs voices by the hash of their sample, and runs the program.

The model has one module per concern:

- `Text`: Python `str.strip`, `split`, `join` and `in`.
- `Silence`: reading the engine's `silencedetect` report.
- `Stretch`: the chain of `atempo` stages.
- `Loudness`: the gain decision.
- `NameCache`: slug, cache key, file name, the cache directory as a class, the batch
  split ladder, de-duplication and the master track list.
- `Tiers`: the splice plan of each tier and the dispatch between tiers.
- `Recipients`: the recipient loop of `main`.
- `Backend`: `backend/app.py` and the job table of `backend/jobs.py`.

The engine is given to the model as values and functions, not run:

- its reports (lines and exit code);
- probed durations;
- number parsing (`float(text)` as `string -> Option<real>`);
- hashes (SHA-1 and SHA-256 hex);
- TTS success or failure;
- whether converting a recording to WAV succeeds, whether each clip cut from the
  batch recording succeeds, whether generating a silence succeeds and whether joining
  the names master succeeds (a failed `run` raises);
- `str.format(name=...)`;
- `"{:.3f}"` formatting.

Timestamps are `real`.

The recipient loop calls `build_personalized_video` through the run's `build` function.
`Recipients.Builds` says that this function is `Tiers.Build` under the run's options.
The loop's properties hold for any build; the dry-run property uses `Builds`.

Errors come in two kinds:

- `Raised(message)` is a Python exception, which the recipient loop catches.
- `Exit(message)` is `die()` or `sys.exit`. It raises `SystemExit`, which `except Exception`
  does not catch, so it ends the program.

## Model

| member | source | states |
|---|---|---|
| Text.TrimMeaning | personalized_video.py:269-271 | A trim drops exactly a run of dropped characters from each end, and the result begins and ends with a kept character or is empty. |
| Text.IndexOfIsFirstMatch | personalized_video.py:191-199 | `IndexOf` finds the first occurrence of the pattern, and finds none exactly when the pattern does not occur. |
| Text.SplitJoin | personalized_video.py:366-377 | Splitting a join of separator-free parts on the one-character separator gives back the parts. |
| Text.NatText | personalized_video.py:627-628 | The decimal text of a natural number is nonempty, all digits, and has no leading zero. |
| Text.NatTextRoundTrip | personalized_video.py:627-628 | Reading the digits of `str(n)` back gives `n`. |
| Text.IntTextInjective | personalized_video.py:627-628 | Two integers have the same `str` exactly when they are equal. |
| Reals.RoundHalfEven | personalized_video.py:627 | Python's `round`: within 0.5 of the value, and even when the value lies halfway between two integers. |
| Stretch.BuildAtempoStages | personalized_video.py:80-93 | The two loops of `build_atempo_filter` compute exactly `AtempoChain(speed)`. |
| Stretch.AtempoChainProperties | personalized_video.py:80-93 | For a positive speed, every stage is within [0.5, 2.0] and the stages multiply to the speed. All stages but the last are 2.0, or all but the last are 0.5. A non-positive speed gives `[1.0]`. |
| Stretch.HalveChainProperties | personalized_video.py:86-88 | Halving speeds above 2.0 leaves stages in range whose product is the speed, all but the last equal to 2.0. |
| Stretch.DoubleChainProperties | personalized_video.py:89-91 | Doubling speeds below 0.5 leaves stages in range whose product is the speed, all but the last equal to 0.5. |
| Stretch.SingleStage | personalized_video.py:84-93 | A speed already within [0.5, 2.0] is a single stage. |
| Stretch.AtempoExamples | personalized_video.py:80-93 | Speed 3.0 gives stages 2.0 then 1.5. Speed 0.2 gives 0.5, 0.5 and 0.8. |
| Loudness.GainAction | personalized_video.py:143-152 | The gain decision of `match_audio_loudness`: a copy when a level is unknown or the clamped difference is below 0.3 dB, else the clamped gain. Its properties are the three lemmas below. |
| Loudness.ClampMeaning | personalized_video.py:149 | The clamp is the difference itself within ±max and the nearer bound outside. |
| Loudness.GainActionProperties | personalized_video.py:143-152 | With a volume missing, the clip is copied unchanged. An applied gain has the sign of the loudness difference, equals it when within the bound, and is at least 0.3 dB and at most the bound in size. |
| Loudness.NegativeBoundFixedGain | personalized_video.py:149-152 | With a negative bound every pair of levels gets the same gain, the bound's magnitude, whatever the direction of the difference (or a copy when that is below 0.3 dB). |
| Loudness.NoAudibleGain | personalized_video.py:143-152 | Equal loudness, or a bound below 0.3 dB, means no gain is applied. |
| Silence.EndEventsOf | personalized_video.py:230-235 | The `silence_end:` half of a line's parsing gives exactly `EndEvents`. |
| Silence.LineEventsOf | personalized_video.py:223-235 | One line gives exactly `LineEvents`. A start that does not parse skips the rest of the line. |
| Silence.ParseEvents | personalized_video.py:222-235 | The event loop gives exactly `EventsOf(lines)`, in report order. |
| Silence.DetectSpeechEnd | personalized_video.py:191-199 | The loop returns the value of the last `silence_start:` line that parses (`LastStartOf`). |
| Silence.LastStartIsLastStartEvent | personalized_video.py:191-199 | The speech end is the timestamp of the last silence-start event of the report. |
| Silence.LastStartTsNone | personalized_video.py:199 | No speech end is found exactly when the report has no silence start. |
| Silence.LastStartTsIsLast | personalized_video.py:191-199 | A found speech end is a silence start with no later silence start after it. |
| Silence.LineEventsShape | personalized_video.py:223-235 | A line gives at most one start event, and only as its first event. |
| Silence.LastStartTsOfLine | personalized_video.py:191-199 | Appending a line changes the last start exactly when that line's start parses. |
| Silence.LastStartTsSkipsEnds | personalized_video.py:191-199 | End events do not affect the last start. |
| Silence.InsertByTime | personalized_video.py:240 | Insertion keeps every event: the multiset grows by exactly the inserted one. |
| Silence.SortByTime | personalized_video.py:240 | The sort is a permutation of the events. |
| Silence.InsertKeepsAscending | personalized_video.py:240 | Inserting into an ascending list keeps it ascending. |
| Silence.SortIsAscending | personalized_video.py:240 | The sort orders the events by timestamp. |
| Silence.SortIsStable | personalized_video.py:240 | The sort is stable: events with one timestamp keep their report order. |
| Silence.FirstTs | personalized_video.py:244-262 | The first wanted event in order is found, with no wanted event before it, or none exists. |
| Silence.FirstSpeechSegment | personalized_video.py:237-266 | The first speech segment of a report's events: none without events, else the search over the events sorted by time. Its meaning is `Silence.FirstSpeechSegmentIsReference` and `Silence.FirstSpeechSegmentBounds`. |
| Silence.FindFirstSpeechSegment | personalized_video.py:244-266 | The search loops over the sorted events compute exactly `SegmentOfSorted`. |
| Silence.FirstWanted | personalized_video.py:244-262 | One search loop returns the timestamp of the first wanted event, stopping there (`FirstTs`). |
| Silence.DetectFirstSpeechSegment | personalized_video.py:222-266 | Parsing then searching gives `FirstSpeechSegment` of the report's events. |
| Silence.MinTs | personalized_video.py:244-262 | The least timestamp of a wanted event, which is attained, or none when no event is wanted. |
| Silence.ReferenceSegment | personalized_video.py:237-266 | The reference segment ends at the earliest silence start more than 0.02 s after its start. |
| Silence.FirstSpeechSegmentIsReference | personalized_video.py:237-266 | Searching the sorted events gives the order-free reference definition. It starts at 0 or at the end of the earliest event's silence, and ends at the earliest later silence start. |
| Silence.SpeechStartIsReference | personalized_video.py:244-249 | The speech start found in the sorted events is the least silence end when the earliest event is a silence start near 0, and 0 otherwise. |
| Silence.FirstSpeechSegmentBounds | personalized_video.py:237-266 | No events give no segment. A segment is longer than 0.02 s and ends at a reported silence start, the earliest one after its start. |
| Silence.SpeechFromZero | personalized_video.py:244-249 | When nothing is reported before 0.05 s, speech starts at 0 and ends at the first silence start after 0.02 s. |
| Silence.FirstSpeechExample | personalized_video.py:237-266 | Silence at 0, its end at 1.2 and a silence at 3.0 give the segment [1.2, 3.0]. |
| Silence.SortExample | personalized_video.py:240 | Events already in time order are unchanged by the sort. |
| Silence.PairSilences | personalized_video.py:467-481 | The silences paired from `silence_start`/`silence_end` lines, with the start still open. Its properties are `Silence.PairedSilencesNonnegative` and `Silence.UnpairedEndIgnored`. |
| Silence.NonsilentSegments | personalized_video.py:484-492 | The gaps between silences within [0, total] that are at least `minSegment` long. Its properties are `Silence.NonsilentSegmentsProperties` and `Silence.NoSilenceOneSegment`. |
| Silence.PairReport | personalized_video.py:467-481 | The pairing loop gives exactly the silences of `PairSilences`. |
| Silence.Complement | personalized_video.py:484-492 | The complement loop gives exactly `NonsilentSegments`. |
| Silence.PairedSilencesNonnegative | personalized_video.py:478-480 | Every paired silence is clamped to nonnegative times. |
| Silence.PairStepNonnegative | personalized_video.py:478-480 | One pairing step keeps silences nonnegative. |
| Silence.UnpairedEndIgnored | personalized_video.py:472-481 | A `silence_end:` with no open silence changes nothing. |
| Silence.SweepKeepsInvariant | personalized_video.py:484-490 | After each silence, the segments are in order, each at least `minSegment` long and nonempty, and all before the cursor, which is past every silence. |
| Silence.SweepAvoidsSilences | personalized_video.py:484-490 | For silences sorted by start, no kept segment overlaps a silence. |
| Silence.NonsilentSegmentsProperties | personalized_video.py:484-492 | The non-silent segments are in order, each nonempty and at least `minSegment` long, and with sorted silences they overlap none of them. |
| Silence.NoSilenceOneSegment | personalized_video.py:484-492 | A report without silences gives the whole clip as one segment. |
| Silence.DetectSpeechEndOf | personalized_video.py:174-199 | A failed run raises. Otherwise the result is the last silence start. |
| Silence.DetectFirstSpeechSegmentOf | personalized_video.py:202-266 | A failed run raises. Otherwise the result is the first speech segment of its events. |
| Silence.NonsilentOfProperties | personalized_video.py:450-492 | The segments exist exactly when the run succeeds and the duration is known. They are in order and each at least `minSegment` long. |
| Silence.DetectNonsilentSegments | personalized_video.py:450-492 | `detect_nonsilent_segments` gives exactly `NonsilentOf`. |
| NameCache.SafeSlug | personalized_video.py:269-271 | `safe_slug`: strip, collapse runs of other characters to `_`, trim `_`, default `person`. Its properties are the slug lemmas below. |
| NameCache.CollapseIsSlugChars | personalized_video.py:270 | After collapsing, only letters, digits, `_` and `-` remain. |
| NameCache.SafeSlugIsSlug | personalized_video.py:269-271 | A slug is nonempty, made of slug characters, and neither starts nor ends with `_`. |
| NameCache.SlugIsFixedPoint | personalized_video.py:269-271 | A string that already is a slug is its own slug. |
| NameCache.SafeSlugIdempotent | personalized_video.py:269-271 | Slugging twice is slugging once. |
| NameCache.SafeSlugIgnoresPadding | personalized_video.py:269-271 | Surrounding whitespace does not change the slug. |
| NameCache.CollapseKeepsSlugChars | personalized_video.py:270 | Collapsing leaves a string of slug characters unchanged. |
| NameCache.CacheKey | personalized_video.py:352-377 | The eight settings joined by `\|`, the sample by its SHA-256. Its properties are `NameCache.CacheKeyRoundTrip` and `NameCache.CacheKeyInjective`. |
| NameCache.CacheKeyRoundTrip | personalized_video.py:352-377 | When no field contains `\|`, the cache key splits back into its eight fields. |
| NameCache.CacheKeyInjective | personalized_video.py:352-377 | When no field contains `\|`, two settings share a key exactly when their eight fields agree. |
| NameCache.Take | personalized_video.py:348 | The digest prefix is at most 12 characters, and exactly 12 when the digest is long enough. |
| NameCache.CacheFilename | personalized_video.py:347-349 | The slug, `_`, the first 12 hex digits of the SHA-1 of the stripped name and key, and `.wav`. Its properties are the three lemmas below. |
| NameCache.FilenameParts | personalized_video.py:347-349 | A file name is the slug, `_`, the digest and `.wav`, and each part can be read back. |
| NameCache.CacheFilenameInjective | personalized_video.py:347-349 | With full-length digests, two clips share a file name exactly when their slugs and digest prefixes agree. |
| NameCache.CacheFilenameIgnoresPadding | personalized_video.py:347-349 | Surrounding whitespace does not change the file name. |
| NameCache.Synthesis | personalized_video.py:405-431 | Speaking a text: provider `none` and unknown providers end the program, otherwise the engine's result. |
| NameCache.Recording | personalized_video.py:405-441 | A text spoken and converted to WAV: a synthesis error is passed on, and otherwise the recording fails exactly when the conversion does, raising `Command failed`. Only the synthesis can end the program. |
| NameCache.ProviderNoneRefused | personalized_video.py:408-409 | Provider `none`, or an unknown provider, ends the program when a clip must be synthesized, before any conversion. |
| NameCache.ClipStep | personalized_video.py:380-447 | `ensure_name_clip_wav` on the directory: a present clip is returned as is; otherwise its recording adds it, or fails and changes nothing. Its properties are `NameCache.ClipStepProperties`. |
| NameCache.ClipStepProperties | personalized_video.py:380-447 | Ensuring a clip never removes a file and reuses a present clip without synthesis. A success is the clip's cache file, now present. Under provider `none`, the program ends exactly when the clip is missing. |
| NameCache.CacheDir.EnsureClip | personalized_video.py:380-447 | The directory changes as `ClipStep` says. Files only grow, and an error is the recording error (synthesis or conversion) of that name. |
| NameCache.Missing | personalized_video.py:523-530 | The missing names are exactly the names whose cache file is absent. |
| NameCache.CacheDir.Scan | personalized_video.py:523-530 | The scan splits the names into present clips, mapped to their cache files, and the `Missing` names. |
| NameCache.RunLadder | personalized_video.py:582-595 | The split loop computes exactly `Ladder`. |
| NameCache.LadderStopsAtFirstEnough | personalized_video.py:588-595 | Enough segments come from the first trial that gives enough, and every earlier trial gave too few. |
| NameCache.LadderShortMeansAllShort | personalized_video.py:588-600 | Ending with too few segments means every trial gave too few. |
| NameCache.Rendered | personalized_video.py:544 | Each name is rendered through the text template, in order. |
| NameCache.JoinHasPart | personalized_video.py:544 | A join contains each of its parts. |
| NameCache.BatchTextHasEveryName | personalized_video.py:542-544 | The batch text contains the rendered text of every missing name. |
| NameCache.BatchSplit | personalized_video.py:532-600 | A successful batch split yields at least as many segments as missing names. |
| NameCache.SplitBatch | personalized_video.py:532-600 | The batch synthesis with its conversion to WAV, then the ladder, give exactly `BatchSplit`. |
| NameCache.BatchSplitProperties | personalized_video.py:532-600 | Provider `none` ends the program. A failed conversion of the batch recording raises. Too few segments after all trials raise the split error. |
| NameCache.ClipFiles | personalized_video.py:602-604 | Each missing name gets its own cache file, in order. |
| NameCache.CutsFor | personalized_video.py:602-622 | One cut per output. |
| NameCache.CutsForStep | personalized_video.py:602-622 | Cutting one more output appends its own cut. |
| NameCache.CutsForAt | personalized_video.py:602-605 | Output i is cut at segment i, for max(0.05, end - start) seconds. |
| NameCache.CutsMade | personalized_video.py:602-622 | The number of cuts made before the first that fails: all before it succeed, and it fails. |
| NameCache.CutsMadeAt | personalized_video.py:602-622 | That number is k exactly when the first k cuts succeed and the next, if any, fails. |
| NameCache.AssignedMeaning | personalized_video.py:602-622 | The dictionary after k cuts holds exactly the present clips and the first k missing names, each under its own file. |
| NameCache.IsFileMap | personalized_video.py:523-622 | A map holding exactly the clips of the names is their file map. |
| NameCache.MergedIsFileMap | personalized_video.py:523-622 | Present clips plus the cut clips of the missing names give every name its cache file. |
| NameCache.CacheDir.CutAll | personalized_video.py:602-622 | Cuts go in order up to the first that fails. The clips cut before it are added to the directory, and a failed cut raises `Command failed`. Without a failure, every missing name's output is added, and with the present clips every name maps to its cache file. |
| NameCache.CacheDir.CutWhileOk | personalized_video.py:602-622 | The loop writes and records the first `idx` cuts, which all succeed, and stops at the cut that fails or at the end. |
| NameCache.CacheDir.EnsureBatch | personalized_video.py:495-622 | With nothing missing, the result is the file map and nothing changes. A failed synthesis, conversion or split changes nothing. Otherwise the missing clips are cut in order: all of them, giving every name its cache file, or those before the first failed cut, which then raises. The files added are `BatchWritten`. |
| NameCache.BatchWrittenClips | personalized_video.py:523-622 | The batch writes only clips of its names that were missing, and nothing when every clip is present. |
| NameCache.CacheDir.TryBatch | personalized_video.py:1834-1858 | The batch attempt adds exactly the clips the batch writes (`BatchWritten`), so a raised failure keeps the clips cut before it for the per-name fill to reuse. It adds only clips of the names, and nothing when all are present. It returns no clips or the file map, and lets only a `die()` through. Without batch mode or a synthesizing provider, it does nothing. |
| NameCache.FillFromFiles | personalized_video.py:1860-1875 | Filling names from a directory only adds clips of those names, and adds nothing and succeeds when every clip is already present. |
| NameCache.FillFromResult | personalized_video.py:1860-1875 | Filling names keeps earlier entries, leaves every name recorded under its own present cache file, and fails only with some name's recording error. |
| NameCache.CacheDir.FillRemaining | personalized_video.py:1860-1875 | Every name ends up recorded under its cache file, which is present, or the error is the recording error of one of the names. Only clips of the names are added, and a directory already holding every clip is left unchanged. |
| NameCache.CacheDir.FillName | personalized_video.py:1861-1875 | One fill step records the name's cache file, keeping earlier names recorded, or fails with that name's recording error. It adds at most that name's clip. A name recorded with a present clip is skipped, and a name whose clip is present adds nothing. |
| NameCache.CacheDir.FillCache | personalized_video.py:1834-1875 | After the batch and the per-name fill, every name is recorded under its present cache file. Otherwise the error is a `die()` or a name's recording error. Files only grow, and only by clips of the names; a directory already holding every clip is left unchanged and the fill succeeds. |
| NameCache.Dedup | personalized_video.py:1826-1833 | The loop with its `seen` set computes `UniqueNames`. |
| NameCache.UniqueNamesDistinct | personalized_video.py:1826-1833 | The unique names hold no repeats. |
| NameCache.UniqueNamesMembers | personalized_video.py:1826-1833 | The unique names are exactly the nonempty stripped rows. |
| NameCache.MasterConcat | personalized_video.py:651-668 | The list loop computes `MasterList`. |
| NameCache.MasterListLayout | personalized_video.py:651-668 | The master list alternates clip and silence: clip i at position 2i, silence between clips, 2n-1 entries. |
| NameCache.SilenceFileProperties | personalized_video.py:625-629 | Two silences share the `_silence_<ms>ms.wav` file exactly when they round to the same milliseconds, and a silence file is never a name's clip. |
| NameCache.MasterInputs | personalized_video.py:1881 | The master's inputs are the recorded clips of the names, in order. |
| NameCache.MasterRun | personalized_video.py:669-683 | Joining the master fails, raising `Command failed`, exactly when the engine's concat run fails. |
| NameCache.CacheDir.EnsureSilence | personalized_video.py:625-648 | A present silence file is reused without a run. Otherwise it is generated and added, or the failed run raises and adds nothing. |
| NameCache.CacheDir.NamesMaster | personalized_video.py:1877-1885 | The silence of the gap is ensured in the cache directory, then the clips with the silence between them are joined. The directory gains only the silence file, and the outcome is the failed silence run or the concat run's. |
| Tiers.NameCountSingle | personalized_video.py:1008-1047 | A single part counts one name exactly when it is a name. |
| Tiers.Silver | personalized_video.py:788-926 | The silver plan: the name in the slot, the optional gap and the base after it, as MP3. Its properties are `Tiers.SilverSlotProperties` and `Tiers.SilverPlanShape`. |
| Tiers.SilverSlotProperties | personalized_video.py:794-807 | Without a segment, the slot is the start of the base, at least 0.2 s unless the base is shorter. A segment of at least 0.12 s is the slot. A shorter one is widened to the replace length within the base. |
| Tiers.SilverPlanShape | personalized_video.py:788-926 | Silver is an MP3 without lip sync: the name in the slot, the optional gap, then the base after the slot; exactly one name. |
| Tiers.NonBlank | personalized_video.py:930-932 | The placeholder words are the nonblank items, stripped. |
| Tiers.NonBlankMeaning | personalized_video.py:930-932 | Every kept word is a nonempty stripped item, and none is kept exactly when all items are blank. |
| Tiers.NonBlankKeepsAll | personalized_video.py:930 | Every nonblank item is kept, stripped, and there are as many kept words as nonblank items. |
| Tiers.PlaceholdersProperties | personalized_video.py:930-933 | There is always at least one placeholder. All-blank items give the default word. Otherwise the placeholders are exactly the nonblank items, stripped, one per nonblank item with repeats, so their number is the count of nonblank items. |
| Tiers.SplitExample | personalized_video.py:930 | `"A,,B".split(",")` gives A, an empty item and B. |
| Tiers.PlaceholdersExample | personalized_video.py:930-932 | `"A,,B"` gives the placeholders A and B. |
| Tiers.BlankPlaceholdersExample | personalized_video.py:930-932 | `" , "` gives the default placeholder. |
| Tiers.Markers | personalized_video.py:939-943 | The markers are the segments no longer than the bound, in order. |
| Tiers.MarkersMeaning | personalized_video.py:939-943 | A segment is a marker exactly when it is no longer than the bound, and markers of ordered segments are ordered. |
| Tiers.MarkersMembers | personalized_video.py:939-943 | A segment is a marker exactly when it is no longer than the bound. |
| Tiers.MarkersInOrder | personalized_video.py:939-943 | Selecting the markers of ordered segments keeps them ordered. |
| Tiers.Platinum | personalized_video.py:928-1047 | The platinum plan: an error with fewer markers than placeholders, else the first markers each replaced by the name. Its properties are `Tiers.PlatinumProperties` and the lemmas around it. |
| Tiers.PlatinumConcat | personalized_video.py:1008-1047 | The concatenation loop computes `PlatinumFrom`. |
| Tiers.PlatinumFromStep | personalized_video.py:1010-1041 | Emitting one marker's group and moving the cursor to its end keeps the loop's account of the whole plan. |
| Tiers.EmitMarker | personalized_video.py:1010-1040 | One marker appends the base up to it, when it starts after the cursor, then the name and the optional gap. |
| Tiers.PlatinumNameCount | personalized_video.py:1008-1047 | The plan names the recipient once per marker. |
| Tiers.ExcerptBeforeShift | personalized_video.py:1008-1047 | An excerpt before a later marker stays so when an earlier marker is put in front. |
| Tiers.PlatinumBaseParts | personalized_video.py:1008-1047 | Every cut of the base lies between the cursor or previous marker and a marker. The tail of the base resumes after the last marker, only when some base is left. |
| Tiers.PlatinumOnlyName | personalized_video.py:1008-1047 | The only name part is the recipient's. |
| Tiers.GapCountAppend | personalized_video.py:1008-1047 | Gaps add up over a concatenation. |
| Tiers.PlatinumGapCount | personalized_video.py:1019-1046 | A platinum plan has one gap per marker when the gap is positive, and none otherwise. |
| Tiers.PlatinumTail | personalized_video.py:1048-1067 | When base is left after the last marker, the plan ends with the rest of the base from there. |
| Tiers.PlatinumExcerpts | personalized_video.py:1017-1042 | Every marker that starts after the point where the base resumes gets the base excerpt up to its start, at least 0.01 s long. |
| Tiers.PlatinumProperties | personalized_video.py:934-1047 | Platinum fails exactly when there are fewer markers than placeholders. Otherwise its parts have the shape `Tiers.PlatinumShape` states for the markers used: it names the first markers, one per placeholder, with one gap each when the gap is positive. Every marker starting after its resume point gets its excerpt, no other base is cut, and the rest of the base is the last part exactly when some is left. |
| Tiers.PlatinumPlan | personalized_video.py:1008-1067 | The concatenation from the start of the base over any nonempty marker list has that shape: one name per marker and no other name, one gap per marker when the gap is positive, an excerpt before every marker starting after its resume point and no other base cut, and the rest of the base last exactly when some is left. |
| Tiers.PlatinumMarkers | personalized_video.py:934-949 | With well-formed silences, the markers of the track are in order and are exactly its short segments. |
| Tiers.Diamond | personalized_video.py:1112-1264 | The diamond plan: an error without a first segment, else the base before the slot, the name at its own pace, the optional gap and the base after the slot. Its properties are `Tiers.DiamondProperties` and `Tiers.DiamondLength`. |
| Tiers.DiamondProperties | personalized_video.py:1112-1264 | Diamond fails exactly without a first segment. Otherwise it keeps the base before the slot and resumes it after. The slot is the segment, or 0.35 s from its start when shorter than 0.12 s. One name, and four parts exactly with a gap. The video is copied and not cut to a length. |
| Tiers.DiamondLength | personalized_video.py:1214-1264 | The diamond audio lasts the base before the slot, the name at its own pace, the gap and the base after the slot, each base piece ending with the base. For a slot within the base it outlasts the base exactly when name and gap outlast the slot. |
| Tiers.Gold | personalized_video.py:1273-1454 | The gold plan: the base before the slot, the name stretched to fill it, the base after it, muxed to the base's length. Its properties are `Tiers.GoldProperties` and `Tiers.GoldKeepsLength`. |
| Tiers.GoldDeadBranches | personalized_video.py:1273-1302 | Under the gold mode, the silver branches never run and the too-short error is unreachable. The slot is `GoldTarget` long, between 0.12 s and the larger of 0.12 s and the cap less the guard. |
| Tiers.GoldFitFillsSlot | personalized_video.py:1325-1327 | The stretched name fills its slot: every stage is in range, and the stages multiply to clip length over slot length. |
| Tiers.GoldKeepsLength | personalized_video.py:1371-1408 | With the slot inside the base, the gold parts last exactly as long as the base. A slot running past the base leaves the suffix empty, and the parts last until the slot's end. |
| Tiers.GoldProperties | personalized_video.py:1273-1440 | Gold fails exactly without a segment. Otherwise its plan is the base before the slot, the fitted name and the base after it. For a segment starting within the base the audio lasts the longer of the base and the slot, and the `-t` cut of the mux makes the output exactly base-long. |
| Tiers.GoldOverrunExample | personalized_video.py:1273-1440 | A 0.05 s segment ending the 1 s base gives a 0.12 s slot, 1.07 s of audio, and a 1 s output after the cut. |
| Tiers.KeepDurationProperties | personalized_video.py:1460-1465 | The kept base length is between 0 and the base length. It is the speech end when that lies within the base, and the base less the name otherwise. |
| Tiers.BuildOutputName | personalized_video.py:726-736 | A dry run only names the output. The output is the slug plus `.mp3` for silver and `.mp4` otherwise. A missing clip under provider `none` ends the program. |
| Tiers.Concat | personalized_video.py:1454-1590 | The fallback concatenation plan, with its silver branches; an unknown mode ends the program. Its reachable shape is `Tiers.ConcatDeadBranches`. |
| Tiers.LipSyncStep | personalized_video.py:42-47 | `none` skips lip sync, `wav2lip` runs it, and `sync_api` or any other provider raises. |
| Tiers.ConcatDeadBranches | personalized_video.py:1454-1590 | No reachable plan freezes the first frame. MP3 output comes exactly from silver, and never with lip sync. |
| Tiers.TierPlan | personalized_video.py:788-1477 | The plan of the tier a mode and position select. Its dispatch is `Tiers.TierRouting`. |
| Tiers.Build | personalized_video.py:688-770 | `build_personalized_video`: the output name, then, unless a dry run, the name audio and the tier's plan. Its properties are `Tiers.BuildOutputName`. |
| Tiers.TierRouting | personalized_video.py:788-1477 | The mode, position and flags select silver, platinum, diamond or gold as the source orders them. An unknown mode or position ends the program. |
| Recipients.Generate | personalized_video.py:1887-1952 | The recipient loop as a value: an entry per served name until a `die()`. Its properties are the lemmas below. |
| Recipients.RecipientIsolated | personalized_video.py:1892-1950 | One recipient's result is its result alone, or in cache mode its own clip's recording error. Recorded clips stay valid, and files only grow. |
| Recipients.GenerateIsolated | personalized_video.py:1887-1952 | Every reported entry is its recipient's own result or its own clip's recording error. The cache only grows and recorded clips stay valid. |
| Recipients.GenerateServesAll | personalized_video.py:1887-1952 | There is one entry per served name, in order: all of them when no `die()` ends the loop, else those before the recipient whose own result was that exit. |
| Recipients.GenerateNames | personalized_video.py:1887-1952 | The entries name the served names in order, all of them exactly when no `die()` ends the loop. |
| Recipients.GenerateStop | personalized_video.py:1887-1952 | A `die()` that ends the loop comes from the next served recipient: its result alone, or its own clip's recording. |
| Recipients.ServedMembers | personalized_video.py:1888-1891 | The served names are exactly the nonempty stripped rows. |
| Recipients.FilledTail | personalized_video.py:1895-1897 | With every served name's clip recorded, the first recipient uses its recorded clip and changes nothing. |
| Recipients.FilledKeepsState | personalized_video.py:1887-1952 | With every clip recorded, the loop changes neither the directory nor the dictionary. |
| Recipients.FilledEntriesAlone | personalized_video.py:1887-1952 | With every clip recorded, each entry is exactly its recipient's result alone. |
| Recipients.FilledStopAlone | personalized_video.py:1887-1952 | With every clip recorded, a `die()` comes from the next served recipient's own result. |
| Recipients.RecipientFilled | personalized_video.py:1895-1897 | A recipient whose clip is recorded gets its result alone and changes nothing. |
| Recipients.DryRunRecipient | personalized_video.py:733-735 | In a dry run a recipient changes no state and gets an output without a plan. |
| Recipients.DryRunCreatesAll | personalized_video.py:733-735 | A dry run reports every served name as created, without a plan. |
| Recipients.GenerateAll | personalized_video.py:1887-1952 | The loop leaves the entries, the stop and the state of `Generate`. |
| Recipients.Serve | personalized_video.py:1892-1950 | One iteration leaves the result and state of `Recipient`. |
| Recipients.LoopFacts | personalized_video.py:1887-1952 | Starting from a filled cache, or outside cache mode, every entry is its recipient's result alone, a run without exit serves every name, and the loop leaves the directory and the dictionary unchanged. |
| Recipients.PlainKeepsState | personalized_video.py:1887-1952 | Outside cache mode, the loop touches neither the directory nor the dictionary. |
| Recipients.GenerateVideos | personalized_video.py:1825-1952 | The whole run: files only grow, in cache mode only by the clips of the unique names and the names master's silence file, which is present when the run goes on with a master. In cache mode every entry is its recipient's result alone. Without an exit, every served name is reported in order. A raised stop (a failed master run) happens only in cache mode, before any entry. Outside cache mode, the directory is untouched. |
| Backend.ResolveMode | backend/app.py:110-113 | Diamond and platinum run as gold; a tier other than silver and gold is refused. Its properties are `Backend.ResolveModeProperties`. |
| Backend.ResolveModeProperties | backend/app.py:110-113 | Diamond and platinum run as gold, and silver and gold as themselves. Any other tier fails the job, naming it. |
| Backend.LipSyncGate | backend/app.py:155-156 | Lip sync only for diamond and platinum. Its properties are `Backend.LipSyncGateProperties`. |
| Backend.LipSyncGateProperties | backend/app.py:155-156 | Lip sync is kept exactly for diamond and platinum, and otherwise becomes `none`; a kept provider only runs with gold. |
| Backend.AppendFlags | backend/app.py:243-247 | The command gains exactly the three toggles and the voice-sample arguments. |
| Backend.FlagsProperties | backend/app.py:243-247 | Each on/off flag appears exactly when its option holds, its negation exactly when it does not. `--voice-sample` appears exactly for a nonempty sample. |
| Backend.Lookup | backend/app.py:163-181 | The voice for a sample hash: the cached one, or a new clone stored under the hash. Its properties are `Backend.LookupHit` and `Backend.LookupMiss`. |
| Backend.LookupHit | backend/app.py:163-168 | A known sample hash reuses its voice, takes the given model or else the stored one, and leaves the cache alone. |
| Backend.LookupMiss | backend/app.py:169-181 | An unknown hash clones the voice and stores it with the given model or the default. It changes only that entry. A failed clone fails and stores nothing. |
| Backend.VoiceCache.Resolve | backend/app.py:163-181 | The lookup-or-insert leaves the result and cache of `Lookup`. |
| Backend.Tail | backend/app.py:250-254 | The tail is a suffix of at most n characters, the whole string when short enough. |
| Backend.Prepare | backend/app.py:110-182 | The run preparation: the invocation, or the error that fails the job, and the voice cache after it. Its properties are `Backend.PrepareProperties`. |
| Backend.PrepareProperties | backend/app.py:110-182 | A prepared run uses the resolved tier with gated lip sync. An unknown tier fails first and leaves the voice cache alone. The cache changes only under the hash of the job's sample, and only for ElevenLabs. |
| Backend.Final | backend/app.py:249-263 | The status a job ends with. Its properties are `Backend.FinalProperties`. |
| Backend.FinalProperties | backend/app.py:249-263 | A job is done exactly when preparation and the run succeed. A preparation error fails it with that message, and a failed run with the program's failure text. |
| Backend.JobStore.Create | backend/jobs.py:51-61 | A new id is queued with its options, and an id in use is refused. |
| Backend.JobStore.UpdateStatus | backend/jobs.py:63-72 | Only the status of an existing job changes. A missing id changes nothing. |
| Backend.PrepareJob | backend/app.py:110-182 | The steps before the run leave the result and cache of `Prepare`. |
| Backend.RunPipeline | backend/app.py:99-263 | A missing job changes nothing. Otherwise the job goes to running, then to the final status of its preparation and run, and the voice cache is updated by `Prepare`. |
| Backend.ValidateJob | backend/app.py:318-336 | The HTTP 400 detail a form is refused with, in the source's order of checks. Its properties are `Backend.ValidateJobProperties`. |
| Backend.ValidateJobProperties | backend/app.py:318-336 | A form is accepted exactly when ElevenLabs comes with a sample, Wav2Lip on diamond or platinum has a found repository with `inference.py` and a found checkpoint, and platinum has a nonblank placeholder. |
| Backend.CreateJob | backend/app.py:266-372 | A refused form returns its detail and queues nothing. An accepted form with a fresh id is queued with its options. An accepted form whose id is in use, because ids have one-second resolution, is refused by the table and queues nothing. |
| Backend.AcceptedElevenLabsHasSample | backend/app.py:318-319 | An accepted ElevenLabs job has its sample, so it fails before the run only for its tier, its conversion, or a failed clone of an unknown voice. |

## Left out

- I/O, processes and timing are not modelled: temporary directories, file writes and
  moves, the zip archive and `elevenlabs_voice_cache.json` are abstracted as inputs and
  outputs. Of the ffmpeg/ffprobe runs, the `silencedetect` reports and their exit codes,
  the success of the conversions to WAV and the success of each batch clip cut are
  parameters.
- The runs that extract, cut, concatenate and mux audio and video inside a tier build
  are taken to succeed. In the source a failure there raises `RuntimeError`, which the
  recipient loop catches and reports; the recipient loop's properties hold for any
  build result, but `Tiers.Build` never fails for that reason.
- The conversion of one name's recording and of the batch recording share one success
  parameter, keyed by the spoken text. A failed clip cut is taken to leave no file.
- Floating point is modelled as exact `real` arithmetic, so `silence_seconds * 1000` is
  rounded exactly. The `:.3f` formatting of times and speeds is not modelled.
- Number parsing (`float(text)`) is an oracle that fails or succeeds. Its grammar is
  not modelled.
- SHA-1, SHA-256 and `str.format(name=...)` are function parameters. No property of a
  real hash is assumed beyond the 12-character prefix length.
- TTS providers (gTTS, the ElevenLabs HTTP API, the command template) are only success
  or failure of a synthesis. Voice cloning over the network is a given result.
- `apply_lip_sync` is modelled only as the provider gate (`LipSyncStep`). The Wav2Lip
  invocation itself is an external program.
- `mean_volume_db`, `ffprobe_duration` and video-stream probing are given values.
  The name-duration and base-duration probes cannot fail in the model.
- The filter graphs themselves (fades, `apad`, mapping flags, codecs) are not modelled.
  Plans record only which parts go where and how they are muxed.
- The legacy start-position branches at `personalized_video.py:1476-1478` are
  unreachable and are proved so (`Tiers.ConcatDeadBranches`) rather than modelled in
  full.
- Loudness.GainActionProperties: requires a nonnegative gain bound, since with a negative
  bound the clamp no longer bounds the gain; that case is stated separately by
  `Loudness.NegativeBoundFixedGain`.
- The names master file lies outside the cache directory and is not tracked; only the
  outcome of the run that writes it is modelled (`NameCache.MasterRun`). A failed
  silence run is taken to leave no file.
- `read_recipients` (pandas CSV/Excel loading), argument parsing, `print` output and the
  `clear_name_audio_cache` helper are not modelled. The recipient rows are given as strings.
- `backend/storage.py` (upload storage), `backend/convert_video.py` (the `.mov`
  conversion, abstracted as a success or failure message) and the FastAPI endpoints for
  listing, download and `get_job` are not modelled. The job table of `backend/jobs.py`
  is a map from id to status and options. Timestamps, directories and the zip path
  column are not modelled.
- `Backend.CreateJob`: uploads are stored before validation in the source; that storage
  is not modelled, so a refused form leaves nothing behind in the model.
- Python's lower-casing of the base file suffix is abstracted as `baseIsMov`.
  `expanduser` and path joining for Wav2Lip are abstracted as the `present` and
  `hasInference` predicates of the host.
- The fixed arguments of the program command other than the mode, lip-sync provider,
  TTS provider, voice and flags are not modelled.
- Concurrency of background jobs is not modelled. Each job runs as one sequential step.
