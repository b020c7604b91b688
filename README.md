# LoudGain, modelled in Dafny

LoudGain is a ReplayGain 2.0 tagger. It scans audio files with FFmpeg and
libebur128, works out track and album gains relative to -18 LUFS (-23 LUFS
for Opus), checks the gained peaks for clipping, and writes the results as
tags with TagLib. This project models four parts of it:

- **Scanning and album aggregation** (`AudioFile`, `AudioFolder`):
  - what one scan attempt does to the record, by the stage where it ends;
  - the per-channel true-peak maximum;
  - the album values shared by every member of a folder.
- **The controller** (`LoudGain`):
  - the option setters and their clamping;
  - clip detection and clip prevention;
  - the file-extension filter;
  - grouping by folder;
  - the order in which the library is scanned and aggregated.
- **ReplayGain tag maintenance** (`RGTagManager`):
  - routing a file to a tag format;
  - the update, removal and presence rules for ID3v2 TXXX frames;
  - the same rules for Xiph comments, APE, ASF and MP4 items;
  - Opus R128 gains;
  - when a file is saved.
- **The work-stealing thread pool** (`mvThreadPool`): the per-worker queues, the order in which a worker looks for work, and the idle and done flags.

Modules:
- `Common`: options, paths, ASCII upper-casing and the max-peak fold.
- `Scan`: `AudioFile` and one scan.
- `Folder`: `AudioFolder` and album aggregation.
- `Clipping`: clip checks.
- `Extensions`: extension lists.
- `Library`: folder grouping and the scan/aggregate schedule.
- `Controller`: the `LoudGain` class.
- `TagKeys`: tag names, name tables and gain formatting.
- `TagStore`: key/value tag stores and their writers.
- `Id3`: ID3v2 TXXX frames.
- `TagManager`: format routing.
- `ThreadPool`: the pool.

The libraries are represented by their results:
- FFmpeg and libebur128 appear as a `ScanOutcome` value.
- `pow(10, x/20)` and `20*log10(x)` are function parameters. Clipping.DecibelLaws states the laws they need.
- `printf`-style formatting is a parameter, `decimal`.
- TagLib's containers are maps and sequences.

## Model

| member | source | states |
|---|---|---|
| Common.PeakOfBounds | src/scan.cpp:468-475 | the max-from-0.0 peak fold is never negative, bounds every value, and is 0.0 or one of the values |
| Common.UpperIdempotent | src/tag.cpp:133-140 | upper-casing a key twice gives the same key as once |
| Scan.SuccessfulMembers | src/scan.cpp:470-475 | a value is among the successful channel peaks exactly when some channel's true-peak query returned it |
| Scan.TrackPeakBounds | src/scan.cpp:468-475 | the track peak is at least every successful channel peak, never negative, and 0.0 or one of them |
| Scan.ScanStatusOutcome | src/scan.cpp:224-490 | scanFile leaves SUCCESS only after a full measurement; every early exit leaves FAIL |
| Scan.FailedScanKeepsMeasurements | src/scan.cpp:227-465 | an early exit leaves the track values, the album values and the loudness reference unchanged |
| Scan.SuccessfulScanGain | src/scan.cpp:477-487 | after a successful scan the gain is -18 - loudness + pregain, with pregain lowered by 5 for Opus; the reference is -18 + pregain; album values, clip flags and the new peak are untouched |
| Scan.SuccessfulScanPeak | src/scan.cpp:468-484 | the stored track peak is the largest successful channel true peak, or 0.0 |
| Scan.ScenarioPlainTrack | src/scan.cpp:72 | a FLAC track at -20 LUFS with pregain 0 gets +2 dB against reference -18 LUFS |
| Scan.ScenarioOpusTrack | src/scan.cpp:479-487 | an Opus track at -21 LUFS with pregain 0 gets -2 dB against reference -23 LUFS |
| Scan.AudioFile.constructor | src/scan.cpp:74-85 | a new AudioFile has the field initialisers of include/scan.hpp and no measurement state |
| Scan.AudioFile.DestroyEbuR128State | src/scan.cpp:93-103 | reports true and clears the state exactly when one existed; no other field changes |
| Scan.AudioFile.ScanFile | src/scan.cpp:224-490 | the record becomes Scanned(old record, pregain, outcome); returns true only for a full measurement; an earlier state is destroyed exactly when the attempt reaches ebur128_init |
| Scan.AudioFile.ScanMeasured | src/scan.cpp:468-487 | after a full measurement the record becomes the scanned record: status SUCCESS, the measured loudness and range, the channel peak maximum and the derived gain and reference; the old state is destroyed |
| Scan.ChannelPeak | src/scan.cpp:468-475 | the channel loop computes the max-from-0.0 of the successful true peaks |
| Clipping.ClipFlags | src/loudgain.cpp:525-555 | the clip flag ends raised exactly when it was raised or the gained peak exceeds the ceiling, and prevention is off; the prevention flag is raised exactly when such a clip is prevented; only a prevented clip changes the gain |
| Clipping.ZeroPeakNeverClips | src/loudgain.cpp:525-558 | a silent scope never clips, keeps its gain and gets new peak 0 |
| Clipping.CorrectionReachesCeiling | src/loudgain.cpp:539-558 | a prevented clip lowers the gain so that the new peak equals the ceiling exactly |
| Clipping.CorrectionBranch | src/loudgain.cpp:541-547 | the prevention branch takes 20*log10(gained/ceiling) off the gain, clears the clip flag and raises the prevention flag |
| Clipping.Settled | src/loudgain.cpp:525-558 | a scope whose flags and new peak already match its gain passes the check unchanged |
| Clipping.CorrectionIdempotent | src/loudgain.cpp:525-558 | running the clip check twice gives the same scope as running it once |
| Clipping.AlbumOnlyInAlbumMode | src/loudgain.cpp:530-536 | without album mode the album values are not touched |
| Clipping.AlbumIndependentOfTrack | src/loudgain.cpp:549-559 | the album outcome depends on the album values only |
| Clipping.ScenarioClippingTrack | src/loudgain.cpp:525-558 | peak 1.0 at +3 dB against a -1 dBTP ceiling is cut to -1 dB, with the new peak on the ceiling |
| Clipping.LinearRatio | src/loudgain.cpp:544 | dividing two dB factors is the factor of the difference (law used by the correction) |
| Clipping.LinearAfterCut | src/loudgain.cpp:544 | taking 20*log10(q) dB off a gain divides its factor by q |
| Clipping.PositiveExcess | src/loudgain.cpp:544 | a gained-to-ceiling ratio above 1 is a positive cut, so a corrected gain is lower |
| Folder.FirstFailure | src/scan.cpp:631-633 | the index where scanFolder stops: every earlier attempt measured and the attempt at it did not |
| Folder.IncompleteFolderNotAggregated | src/scan.cpp:640-642 | a folder with a member that is not scanned successfully is never aggregated and is left unchanged |
| Folder.AggregationFailsIff | src/scan.cpp:674-690 | once all members are scanned and the combines succeed, aggregation fails exactly when the containers or codecs differ and one member is Opus |
| Folder.AlbumPeakIsMax | src/scan.cpp:697-699 | the album peak is the largest member track peak (or 0.0), never negative |
| Folder.AggregationWritesAlbumOnly | src/scan.cpp:701-708 | on success every member gets the same album gain, peak, loudness and range and nothing else changes |
| Folder.AlbumGainMatchesReference | src/scan.cpp:692-704 | the album gain uses the same reference as each member's track gain, because Opus never mixes into an aggregated album |
| Folder.AggregationIdempotent | src/scan.cpp:638-710 | running processScanResults again on an aggregated folder changes nothing |
| Folder.SingleTrackAlbum | src/scan.cpp:638-710 | a one-track album whose combined loudness is the track's own gets the track gain and peak as album values |
| Folder.AudioFolder.constructor | src/scan.cpp:559-578 | one fresh, unscanned AudioFile per path, in order; the folder's directory is the first file's |
| Folder.AudioFolder.HasDifferentContainers | src/scan.cpp:598-604 | true exactly when some member after the first has another container name than the first |
| Folder.AudioFolder.HasDifferentCodecs | src/scan.cpp:606-612 | true exactly when some member after the first has another codec than the first |
| Folder.AudioFolder.HasOpus | src/scan.cpp:614-620 | true exactly when some member is Opus |
| Folder.AudioFolder.ScanFile | src/scan.cpp:622-627 | scans member i when it exists, otherwise reports false and changes nothing |
| Folder.AudioFolder.ScanFolder | src/scan.cpp:629-636 | scans members in order up to the first failure and then stops with false; otherwise the result and the members are those of aggregation |
| Folder.AudioFolder.ScanMembers | src/scan.cpp:631-633 | the members scanned are exactly those up to the first failed attempt |
| Folder.AudioFolder.AllMembersScanned | src/scan.cpp:640-642 | true exactly when every member is scanned successfully |
| Folder.AudioFolder.CollectStates | src/scan.cpp:644-648 | the state array lists each member's measurement state in order |
| Folder.AudioFolder.MaxTrackPeak | src/scan.cpp:697-699 | the loop computes the max-from-0.0 of the member track peaks |
| Folder.AudioFolder.WriteAlbumValues | src/scan.cpp:701-708 | each member gets the album values and keeps every other field |
| Folder.AudioFolder.MixesOpusAndOthers | src/scan.cpp:675-690 | refuses exactly a container or codec mix that includes Opus |
| Folder.AudioFolder.ComputeAlbumValues | src/scan.cpp:640-699 | the album values, or None at each of the source's false returns, in the source's order |
| Folder.AudioFolder.AlbumOf | src/scan.cpp:694-699 | the album values for the combined loudness and range: the pregain lowered by 5 dB for an Opus album, the largest track peak as album peak |
| Folder.AudioFolder.ProcessScanResults | src/scan.cpp:638-710 | returns true exactly when album values exist; the members become the aggregated members |
| Extensions.SupportedShape | include/loudgain.hpp:98 | the supported list has 18 entries, each a dot followed by at least one character |
| Extensions.Fields | src/loudgain.cpp:287-289 | a comma-separated text always has at least one field |
| Extensions.JoinFields | src/loudgain.cpp:287-289 | splitting at commas and joining with commas gives back the text, and no field holds a comma |
| Extensions.LastField | src/loudgain.cpp:289 | the last field is empty exactly when the text is empty or ends with a comma (the piece getline does not yield) |
| Extensions.PiecesRejoin | src/loudgain.cpp:287-289 | without a trailing comma the getline pieces are all the fields and join back to the text |
| Extensions.CandidateShape | src/loudgain.cpp:291-294 | a piece yields an extension exactly when it has two characters or more; the extension is dotted, and a dotted piece is kept as it is |
| Extensions.CandidatesMembers | src/loudgain.cpp:289-295 | the candidate list holds exactly the extensions the pieces stand for |
| Extensions.KeepSupportedMembers | src/loudgain.cpp:299-301 | filtering keeps exactly the candidates found in the supported list |
| Extensions.KeepSupportedAppend | src/loudgain.cpp:299-301 | filtering keeps the input order |
| Extensions.SelectedSound | src/loudgain.cpp:284-302 | the stored list holds an extension exactly when it is supported and some piece of the option stands for it |
| Extensions.FieldsOfWord | src/loudgain.cpp:287-289 | a word without commas is a single field |
| Extensions.UpperCaseRejected | src/loudgain.cpp:299-301 | the comparison is case-sensitive: "FLAC" selects nothing |
| Library.GroupedByDirectory | src/loudgain.cpp:376-396 | the folder map has a key exactly for each parent directory, holding that directory's files in input order, at least one |
| Library.InFolderMembers | src/loudgain.cpp:381-393 | a file is in a directory's list exactly when it is one of the files and lives there |
| Library.GroupingPartitions | src/loudgain.cpp:376-396 | every file is in the list of its own directory and in no other |
| Library.GroupByFolder | src/loudgain.cpp:379-395 | the loop builds the folder map of the files |
| Library.FlushWave | src/loudgain.cpp:463-470 | a wave ends with a barrier followed by the aggregation of every held folder |
| Library.ProcessWaves | src/loudgain.cpp:453-479 | in few-folder album mode every folder is aggregated exactly once, in map order, after a barrier that follows all its track scans; each wave holds one folder or fewer than 2000 tracks |
| Library.WaveStep | src/loudgain.cpp:459-475 | one folder of the wave loop: when its tracks bring the count to 2000 the held folders are aggregated after a barrier and the count restarts at the folder's own; the folder is then held behind its scans, and the loop's bookkeeping and wave bound still hold |
| Library.HoldFolder | src/loudgain.cpp:472-474 | the folder joins the held list with its track scans appended to the trace, and the held track count grows by its count |
| Library.Scanning | src/loudgain.cpp:473-474 | one scan task per track of the folder, in track order |
| Library.Aggregating | src/loudgain.cpp:466-467 | processAudioFolder on each held folder, in order |
| Library.ProcessFolderTasks | src/loudgain.cpp:430-449 | in many-folder album mode a folder of at most 1000 tracks is one task; a larger one is scanned track by track and aggregated after a wait for idle; every folder is handled once, in map order, and the run ends with wait_for_finished |
| Library.DelegatedFolder | src/loudgain.cpp:438-439 | delegating a folder whole adds it to the handled folders and submits no track scans |
| Library.SplitFolder | src/loudgain.cpp:441-447 | a split folder submits all its track scans, then waits for idle, then aggregates |
| Library.FolderTasksThreshold | src/loudgain.cpp:400-430 | while 5 * threads does not wrap around in 32 bits, the many-folder branch is taken exactly when there are more than 5 * max(1, threads) folders |
| Library.ProcessAlbums | src/loudgain.cpp:418-481 | in album mode every folder is aggregated exactly once, in map order, after all its scans and a barrier |
| Library.ProcessTracks | src/loudgain.cpp:484-497 | in track mode one task per file, then wait_for_finished |
| Library.ProcessRemovals | src/loudgain.cpp:402-415 | in delete mode one tag removal per file, then wait_for_finished |
| Library.AfterScansKeptByPlainEvents | src/loudgain.cpp:459-475 | events that aggregate nothing keep the "aggregated after its scans" property |
| Library.AfterScansKeptByFlush | src/loudgain.cpp:465-467 | a barrier followed by the aggregation of folders whose scans all came before it keeps the property |
| Library.UpToLastBarrierKept | src/loudgain.cpp:459-475 | events other than waits leave the trace up to and including its last barrier unchanged |
| Controller.ClampRealLaws | src/loudgain.cpp:191-194 | std::clamp on doubles lands in the range, keeps a value already in it, sends values outside it to the nearer bound, and is idempotent |
| Controller.ClampIntLaws | src/loudgain.cpp:212-215 | the same laws for std::clamp on ints |
| Controller.Id3VersionRange | src/loudgain.cpp:212-215 | the stored ID3v2 version is 3 or 4, and 4 exactly for requests of 4 or more |
| Controller.ThreadCountBounds | src/loudgain.cpp:262-270 | a request other than 0 is capped at the hardware count and kept when it fits; a request of 0 gives one less than the hardware count, wrapping round to the largest unsigned value when that count is 0 |
| Controller.CandidateList | src/loudgain.cpp:289-295 | the getline loop collects the candidate extensions of the pieces, in order |
| Controller.SupportedOnly | src/loudgain.cpp:297-301 | the filter loop keeps the supported candidates, in order |
| Controller.FailedFolderUntouched | src/loudgain.cpp:626-640 | a folder with a failed member is reported and left entirely alone |
| Controller.AlbumValuesShared | src/loudgain.cpp:642-646 | after aggregation in album mode every member ends with the same album values and flags |
| Controller.FolderProcessedAfterAggregation | src/loudgain.cpp:619-624 | scanFolder's aggregation followed by processAudioFolder's own aggregation gives the same result as one aggregation |
| Controller.FolderSizes | src/loudgain.cpp:376-396 | one track count per folder key, in key order, each the size of that directory's file list and never zero |
| Controller.GroupedSizes | src/loudgain.cpp:376-396 | every key of the order is a folder key whose list is the directory's files |
| Controller.LoudGain.constructor | src/loudgain.cpp:97-119 | the field initialisers of include/loudgain.hpp; the list separator becomes ';' when the locale's decimal point is ',' |
| Controller.LoudGain.SetTagMode | src/loudgain.cpp:157-166 | one of d, i, e, s is stored; any other mode is refused and leaves the mode unchanged |
| Controller.LoudGain.SetUnitToLUFS | src/loudgain.cpp:168-174 | the unit becomes "LU" when enabled and "dB" otherwise |
| Controller.LoudGain.SetVerbosity | src/loudgain.cpp:176-179 | stores the level |
| Controller.LoudGain.SetAlbumScanMode | src/loudgain.cpp:181-184 | stores the flag |
| Controller.LoudGain.SetSkipTaggedFiles | src/loudgain.cpp:186-189 | stores the flag |
| Controller.LoudGain.SetPregain | src/loudgain.cpp:191-194 | the pregain is clamped to [-32, 32] |
| Controller.LoudGain.SetWarnClipping | src/loudgain.cpp:196-199 | stores the flag |
| Controller.LoudGain.SetPreventClipping | src/loudgain.cpp:201-204 | stores the flag |
| Controller.LoudGain.SetMaxTruePeakLevel | src/loudgain.cpp:206-210 | switches clip prevention on and stores the level clamped to [-32, 32] |
| Controller.LoudGain.SetID3v2Version | src/loudgain.cpp:212-215 | the version is clamped to [3, 4] |
| Controller.LoudGain.SetForceLowerCaseTags | src/loudgain.cpp:217-220 | stores the flag |
| Controller.LoudGain.SetStripTags | src/loudgain.cpp:222-225 | stores the flag |
| Controller.LoudGain.SetTabOutput | src/loudgain.cpp:227-230 | stores the flag |
| Controller.LoudGain.SetNumberOfThreads | src/loudgain.cpp:262-270 | stores the thread count for the given hardware concurrency, in unsigned arithmetic |
| Controller.LoudGain.SetRecursiveDirectoryScan | src/loudgain.cpp:279-282 | stores the flag |
| Controller.LoudGain.SetUserExtensions | src/loudgain.cpp:284-302 | the list is replaced by the supported candidates of the option text, in order, even when none is left |
| Controller.LoudGain.ProcessAudioFile | src/loudgain.cpp:509-562 | a failed scan is left alone; otherwise the track (and in album mode the album) goes through the clip check and gets its new peak; tags are written exactly for a scanned file in modes i and e |
| Controller.LoudGain.CheckScope | src/loudgain.cpp:524-558 | one scope ends as the clip handling of processAudioFile leaves it: the clip flag raised above the ceiling, the gain lowered by the excess under prevention, the new peak from the final gain |
| Controller.LoudGain.ProcessAudioFolder | src/loudgain.cpp:626-646 | when processScanResults fails nothing is processed or tagged; otherwise every member is processed in order, with one tag write per member in modes i and e |
| Controller.LoudGain.ProcessAggregated | src/loudgain.cpp:642-646 | after a successful aggregation every member is processed in order, and one tag write is counted per member in modes i and e |
| Controller.LoudGain.ProcessMembers | src/loudgain.cpp:642-646 | processAudioFile on each member, in order |
| Controller.LoudGain.ProcessFolderPaths | src/loudgain.cpp:619-646 | a new folder is scanned with the given outcomes and processed; in mode i or e every member is tagged once when every member scanned and the album values exist, and no tag is written otherwise |
| Controller.LoudGain.ScanNewFolder | src/loudgain.cpp:619-622 | the new folder's members are the scanned records up to the first failed scan, aggregated when every scan measured; its files are fresh |
| Controller.LoudGain.ProcessLibrary | src/loudgain.cpp:398-500 | mode d submits one removal per file; track mode one task per file; album mode aggregates every folder once, in key order, after its scans and a barrier; each run ends with wait_for_finished |
| TagKeys.NameTables | src/tag.cpp:149-177 | the lower-case table upper-cases to the upper-case one; distinct tags have distinct names; every name is a ReplayGain name |
| TagKeys.RgNamesOf | src/tag.cpp:159-167 | a string is a ReplayGain name exactly when it is the upper-case name of one of the seven tags |
| TagKeys.TrackWrittenCount | src/tag.cpp:387-391 | a track-mode writer without extra tags writes two tags |
| TagKeys.TrackExtraWrittenCount | src/tag.cpp:383-419 | a track-mode writer in mode e or l writes four tags |
| TagKeys.AlbumWrittenCount | src/tag.cpp:387-403 | an album-mode writer without extra tags writes four tags |
| TagKeys.AlbumExtraWrittenCount | src/tag.cpp:383-419 | an album-mode writer in mode e or l writes seven tags |
| TagKeys.StrCompare | src/tag.cpp:133-146 | 0 for equal strings, 1 for strings that differ only in case, -1 otherwise |
| TagKeys.StrCompareSymmetric | src/tag.cpp:133-140 | the comparison does not depend on argument order |
| TagKeys.StrCompareUpper | src/tag.cpp:133-140 | a string compares 0 with its upper-case form when it is already upper case, 1 otherwise |
| TagKeys.WrittenOrRemoved | src/tag.cpp:371-421 | each of the seven tags is either written or removed by a writer, never both and never neither |
| TagKeys.UpperNamesCount | src/tag.cpp:199-224 | a set of tags has as many distinct names as members |
| TagKeys.WrittenCount | src/tag.cpp:383-421 | a writer writes 2 track tags, 2 more in album mode, and 2 (track) or 3 (album) extra tags in modes e and l |
| TagKeys.ExpectedMatchesWritten | src/tag.cpp:216-224 | for modes other than l, the presence rule asks for exactly as many names as the writer writes; for l it asks for fewer |
| TagKeys.PlainModesAlike | src/tag.cpp:404-419 | without e or l every mode writes what i writes |
| TagKeys.Mp4NameOf | src/tag.cpp:1184-1188 | an MP4 key upper-cases to the upper-cased iTunes prefix followed by the upper-case name, whichever table it came from |
| TagKeys.Mp4NamesDistinct | src/tag.cpp:1184-1188 | distinct tags have distinct MP4 keys, whatever their case |
| TagKeys.ContainerIdSpec | src/tag.cpp:1989-1999 | the lookup gives -1 or an index; an index names the first entry containing the name; -1 means the name is empty or no entry contains it |
| TagKeys.Mp4Family | include/tag.hpp:126 | every FFmpeg name of the MP4 family resolves to the MP4 entry |
| TagKeys.InMp4Entry | include/tag.hpp:126 | the MP4 entry contains each name of the family |
| TagKeys.NotBeforeMp4 | include/tag.hpp:126 | no MP4 family name is found in the mp3, flac or ogg entries |
| TagKeys.FirstContainingSpec | src/tag.cpp:1989-1999 | the scan from index i gives -1 or an index from i on whose entry contains the name, and no entry before the result contains it |
| TagKeys.ResolvesTo | src/tag.cpp:1989-1999 | a name found in entry k and in no earlier entry resolves to k |
| TagKeys.Mp3Name | src/tag.cpp:1989-1999 | "mp3" resolves to the MP3 entry |
| TagKeys.FlacName | src/tag.cpp:1989-1999 | "flac" resolves to the FLAC entry |
| TagKeys.OggName | src/tag.cpp:1989-1999 | "ogg" resolves to the Ogg entry |
| TagKeys.AsfName | src/tag.cpp:1989-1999 | "asf" resolves to the ASF entry |
| TagKeys.WavName | src/tag.cpp:1989-1999 | "wav" resolves to the WAV entry |
| TagKeys.WavPackName | src/tag.cpp:1989-1999 | "wv" is not found inside "wav" and resolves to the WavPack entry |
| TagKeys.AiffName | src/tag.cpp:1989-1999 | "aiff" resolves to the AIFF entry |
| TagKeys.ApeName | src/tag.cpp:1989-1999 | "ape" resolves to the APE entry |
| TagKeys.FragmentsResolve | src/tag.cpp:1989-1999 | the empty name gives -1, and a fragment such as "mp" or "a" resolves to the first entry that contains it |
| TagKeys.RoundLaws | src/tag.cpp:1087-1091 | C's round moves a value by at most one half, keeps integers, and is odd |
| TagKeys.Q78Laws | src/tag.cpp:1087-1091 | the Q7.8 number stands for the gain to within 1/512 dB, stores a whole number of 1/256 dB exactly, and is odd |
| TagStore.UpdatedSound | src/tag.cpp:711-750 | after a Xiph, APE or ASF update the key holds exactly the one value, no other-case spelling of it is left, and every key that is not a spelling of it is untouched |
| TagStore.UpdateChangesIff | src/tag.cpp:711-750 | the update reports a change exactly when the store was not already in its final form |
| TagStore.UpdateIdempotent | src/tag.cpp:711-750 | updating twice with the same value is updating once, and the second update reports no change |
| TagStore.Mp4AsWrittenLeavesStale | src/tag.cpp:1223-1265 | as written, an exact match on the prefixed key with another value leaves the prefixed item stale and stores the value under the bare name |
| TagStore.Mp4AsWrittenExample | src/tag.cpp:1240-1246 | on a file holding only an old prefixed track gain, the code as written keeps the old value under the prefixed key and puts the new one under the bare name, while the intended update stores it under the prefixed key |
| TagStore.Mp4UpdatedSound | src/tag.cpp:1223-1265 | the intended MP4 update leaves the prefixed key holding the value, no other spelling of it, every other key untouched, and reports a change exactly when it made one |
| TagStore.Mp4UpdateIdempotent | src/tag.cpp:1223-1265 | the intended MP4 update applied twice is applied once and reports no change the second time |
| TagStore.CaselessRemovedSound | src/tag.cpp:1267-1336 | a caseless removal keeps exactly the keys whose upper-cased form is none of the names, with their values, and reports a removal exactly when one happened |
| TagStore.MatchNameLaws | src/tag.cpp:1184-1188 | a written key upper-cases to its tag's match name, distinct tags have distinct match names, and the non-MP4 names are upper case |
| TagStore.MatchNamesCount | src/tag.cpp:686-699 | a set of tags has as many match names as members |
| TagStore.PlanSelects | src/tag.cpp:822-856 | the writers' plan writes exactly the written tags, removes the album tags exactly outside album mode and the extra tags exactly outside modes e and l |
| TagStore.AppliedSnoc | src/tag.cpp:822-856 | one more step applies after the others, and its change is ORed into save |
| TagStore.StepKeeps | src/tag.cpp:711-776 | an update or removal leaves every key alone whose upper-cased form is not one of the names it acts on |
| TagStore.RemovedKeeps | src/tag.cpp:752-776 | a subset removal leaves every key alone whose upper-cased form is not one of its names |
| TagStore.OutsideNames | src/tag.cpp:149-167 | a tag outside a set of tags has a match name outside the set's names |
| TagStore.AppliedKeeps | src/tag.cpp:822-856 | steps that never act on a key's name leave the key as it was |
| TagStore.AppliedAppend | src/tag.cpp:822-856 | applying two runs of steps is applying the first and then the second, and the changes are ORed |
| TagStore.SplitAtLast | src/tag.cpp:822-856 | after the last step acting on a tag, the tag's keys are those that step left |
| TagStore.LastWrite | src/tag.cpp:711-750 | when the last step acting on a tag writes it, its key holds the value and no other spelling is left |
| TagStore.LastRemove | src/tag.cpp:752-776 | when the last step acting on a tag removes it, no spelling of its name is left (for Xiph comments, the upper-case key) |
| TagStore.PlanWritesLast | src/tag.cpp:822-856 | every written tag has a write in the plan after which no step acts on it |
| TagStore.PlanRemovesLast | src/tag.cpp:822-856 | every removed tag is last acted on by a removal |
| TagStore.UpperCaseWriters | src/tag.cpp:822-826 | the Xiph and APE writers store the upper-case name whatever -L says |
| TagStore.WriterOutcome | src/tag.cpp:811-861 | after a writer each written tag is stored under its key with its value and no other spelling, and each removed tag is gone |
| TagStore.WriterKeepsOthers | src/tag.cpp:811-861 | a writer leaves every key that spells no ReplayGain name as it was |
| TagStore.PlanPlanned | src/tag.cpp:822-856 | every step of the plan writes a written tag or removes removed tags |
| TagStore.QuietStep | src/tag.cpp:711-776 | a step that reports no change leaves the store as it was |
| TagStore.QuietSteps | src/tag.cpp:822-856 | steps none of which reports a change leave the store as it was |
| TagStore.SettledRemoval | src/tag.cpp:752-776 | on a store the writer has settled, the removals find nothing |
| TagStore.SettledStep | src/tag.cpp:711-776 | on a settled store no planned step reports a change |
| TagStore.SettledSteps | src/tag.cpp:822-856 | on a settled store no run of planned steps reports a change |
| TagStore.WriterSettles | src/tag.cpp:811-861 | the store a writer leaves is settled |
| TagStore.WriterSaveIffChanged | src/tag.cpp:858-860 | a writer sets save exactly when it leaves the store different |
| TagStore.WriterIdempotent | src/tag.cpp:811-861 | a second write of the same values leaves the store as it is and sets no save |
| TagStore.XiphKeepsUpper | src/tag.cpp:822-856 | the Xiph steps keep every key upper case |
| TagStore.MatchNamesAre | src/tag.cpp:1190-1221 | the names the writers compare with are the table's upper-case names, prefixed for MP4 |
| TagStore.WritePresence | src/tag.cpp:683-709 | right after a writer the presence check finds exactly the written tags, so it reports them present in every mode but l |
| TagStore.ClearLeavesNone | src/tag.cpp:778-795 | clearing leaves no ReplayGain name, a second clear changes nothing and reports no removal |
| TagStore.RgNameSecond | src/tag.cpp:159-167 | every ReplayGain name starts REPLAYGAIN_ |
| TagStore.NotRgName | src/tag.cpp:159-167 | a string whose second letter is not E is not a ReplayGain name |
| TagStore.R128TrackUpper | src/tag.cpp:1138 | R128_TRACK_GAIN is upper case |
| TagStore.R128AlbumUpper | src/tag.cpp:1144 | R128_ALBUM_GAIN is upper case |
| TagStore.R128Names | src/tag.cpp:1093-1110 | the two R128 names are distinct, upper case and not ReplayGain names |
| TagStore.OpusGainsStored | src/tag.cpp:1137-1154 | the Opus writer stores the track gain text, the album gain text in album mode and removes it otherwise, with no other spelling left |
| TagStore.OpusDropsRgNames | src/tag.cpp:1146-1158 | the Opus writer removes the REPLAYGAIN extra names, and the album names outside album mode |
| TagStore.OpusKeepsOthers | src/tag.cpp:1126-1163 | the Opus writer leaves every unrelated key as it was |
| TagStore.OpusKeepsRgName | src/tag.cpp:1132-1158 | the old-tag removal being commented out, a REPLAYGAIN track gain or peak (and in album mode an album gain or peak) already present survives the Opus write with its value |
| TagStore.OpusWrittenSound | src/tag.cpp:1126-1163 | the Opus writer's whole outcome: both gains, the removals, and every unrelated key untouched |
| TagStore.OpusQuiet | src/tag.cpp:1126-1163 | when no step of the Opus writer reports a change the comment is unchanged |
| TagStore.OpusFixpointQuiet | src/tag.cpp:1126-1163 | on a comment the Opus writer leaves unchanged no step reports a change |
| TagStore.OpusSaveIffChanged | src/tag.cpp:1160-1162 | the Opus writer saves exactly when it leaves the comment different |
| TagStore.RemovalHitsIff | src/tag.cpp:752-776 | a removal reports a change exactly when it removes something |
| TagStore.OpusGainText | src/tag.cpp:1087-1091 | the stored Opus track gain is the Q7.8 number of the gain, within 1/512 dB of it, and so is the album gain in album mode |
| TagStore.Store.constructor | src/tag.cpp:815-817 | a store starts with the file's items |
| TagStore.Store.Update | src/tag.cpp:711-750 | the store becomes the updated store and the result says whether anything had to be fixed |
| TagStore.Store.UpdateMp4 | src/tag.cpp:1223-1265 | the store becomes the intended MP4 update and the result says whether it changed |
| TagStore.Store.RemoveExact | src/tag.cpp:752-795 | exactly the named keys go, and the result says whether one was there |
| TagStore.Store.RemoveCaseless | src/tag.cpp:1267-1336 | every key upper-casing to one of the names goes, and the result says whether one was there |
| TagStore.Store.TagsPresent | src/tag.cpp:683-709 | present exactly when the number of distinct upper-cased ReplayGain keys is the number the mode asks for |
| TagStore.Store.ClearTags | src/tag.cpp:778-795 | every ReplayGain key goes, and the result says whether one was there |
| TagStore.Store.WriteOpus | src/tag.cpp:1126-1163 | the comment becomes the Opus writer's outcome for the Q7.8 gains, and save holds exactly when it changed |
| TagStore.Store.OpusAlbumStep | src/tag.cpp:1141-1154 | in album mode the R128 album gain is updated; otherwise the ReplayGain album names and the R128 album gain are removed, and the result says whether any was there |
| TagStore.Store.ClearOpus | src/tag.cpp:1093-1110 | every ReplayGain and R128 name goes, and save holds exactly when something went |
| TagStore.Store.ApplyStep | src/tag.cpp:822-856 | one step of a writer through the backend's update or removal |
| TagStore.Store.Perform | src/tag.cpp:822-856 | one more step applied, its change ORed into save |
| TagStore.Store.WriteTrackSteps | src/tag.cpp:822-826 | the track gain and peak writes applied |
| TagStore.Store.WriteAlbumSteps | src/tag.cpp:828-838 | the album writes in album mode, else the album removal, applied |
| TagStore.Store.WriteExtraSteps | src/tag.cpp:840-856 | the extra writes in modes e and l, else the extra removal, applied |
| TagStore.Store.WriteTags | src/tag.cpp:811-861 | the store becomes the plan applied to it, and save is the start flag ORed with every step's change |
| Id3.TxxxUpdatedSound | src/tag.cpp:227-268 | every TXXX frame whose description matches the key in any case becomes [key, value] in place, every other frame keeps its index, one frame is appended exactly when none matched, and afterwards one matches |
| Id3.TxxxChangesIff | src/tag.cpp:227-268 | the update reports a change exactly when it leaves the frame list different |
| Id3.TxxxIdempotent | src/tag.cpp:227-268 | updating twice with the same value is updating once, and the second update reports no change |
| Id3.KeptSound | src/tag.cpp:270-351 | a removal keeps exactly the frames that do not match one of the names, never adds frames, and keeps all of them only when none matched |
| Id3.KeptIdempotent | src/tag.cpp:270-351 | removing twice removes nothing more |
| Id3.TxxxRegion | src/tag.cpp:227-268 | after the update the set of frames under the key's upper-cased name is {[key, value]}: every frame under the name reads [key, value] and there is at least one; every other name's frames stay alone |
| Id3.TxxxOthers | src/tag.cpp:227-268 | updating a ReplayGain name leaves the frames of other descriptions as they were |
| Id3.KeptRegion | src/tag.cpp:270-351 | a removal empties the named regions and leaves every other region and the unrelated frames alone |
| Id3.Id3AppliedSnoc | src/tag.cpp:383-421 | one more step applies after the others, and its change is ORed into save |
| Id3.Id3StepRegion | src/tag.cpp:383-421 | each step sets or clears the regions of its tags and leaves the others and the unrelated frames |
| Id3.OutsideUpperNames | src/tag.cpp:159-167 | a tag outside a set has a name outside the set's names, and those are ReplayGain names |
| Id3.Id3AppliedKeeps | src/tag.cpp:383-421 | steps that never act on a tag leave its frames as they were |
| Id3.Id3AppliedOthers | src/tag.cpp:383-421 | no writer step touches frames outside the ReplayGain names |
| Id3.Id3AppliedAppend | src/tag.cpp:383-421 | applying two runs of steps is applying the first and then the second, and the changes are ORed |
| Id3.Id3LastTouch | src/tag.cpp:383-421 | after the last step acting on a tag, its frames are those that step left |
| Id3.Id3WriterOutcome | src/tag.cpp:371-438 | after the MP3, WAV and AIFF writers a written tag has at least one frame and every frame under its name reads [name, value]; a removed tag has none; every other frame stays |
| Id3.PresentByRegion | src/tag.cpp:192-215 | the presence check counts a ReplayGain name exactly when some counted frame has it in any case |
| Id3.Id3WritePresence | src/tag.cpp:192-225 | right after an ID3 writer the presence check finds exactly the written tags, so it reports them present in every mode but l |
| Id3.Id3QuietStep | src/tag.cpp:227-351 | a step that reports no change leaves the frames as they were |
| Id3.Id3QuietSteps | src/tag.cpp:383-421 | steps none of which reports a change leave the frames as they were |
| Id3.Id3SettledWrite | src/tag.cpp:227-268 | an update finds nothing to do when the key's only frame already is [key, value] |
| Id3.Id3SettledRemoval | src/tag.cpp:270-320 | a removal finds nothing when the named regions are empty |
| Id3.Id3SettledStep | src/tag.cpp:383-421 | on frames the writer has settled no planned step reports a change |
| Id3.Id3SettledSteps | src/tag.cpp:383-421 | on settled frames no run of planned steps reports a change |
| Id3.Id3WriterSettles | src/tag.cpp:371-438 | the frames an ID3 writer leaves are settled |
| Id3.Id3SaveIffChanged | src/tag.cpp:429-437 | an ID3 writer sets save exactly when it leaves the frames different |
| Id3.Id3WriterIdempotent | src/tag.cpp:371-438 | a second write of the same values leaves the frames as they are and sets no save |
| Id3.Id3Tag.constructor | src/tag.cpp:380-382 | a tag starts with the file's TXXX frames |
| Id3.Id3Tag.UpdateTxxx | src/tag.cpp:227-268 | the frames become the updated list and the result says whether anything had to be fixed |
| Id3.Id3Tag.RewriteMatching | src/tag.cpp:229-258 | every counted frame matching the key in any case becomes [key, value], the others stay; found says whether one matched, updated whether one did not already read [key, value] |
| Id3.Id3Tag.UpdateFrame | src/tag.cpp:239-256 | a frame matches exactly when it is counted and its description equals the key up to case; it changes exactly when it matches and is not already [key, value], and then becomes [key, value] |
| Id3.Id3Tag.RemoveMatching | src/tag.cpp:270-351 | the frames matching one of the names go, and the result says whether one did |
| Id3.Id3Tag.TagsPresent | src/tag.cpp:192-225 | present exactly when the number of distinct upper-cased ReplayGain descriptions is the number the mode asks for |
| Id3.Id3Tag.ApplyStep | src/tag.cpp:383-421 | one step of an ID3 writer |
| Id3.Id3Tag.Perform | src/tag.cpp:383-421 | one more step applied, its change ORed into save |
| Id3.Id3Tag.WriteTrackSteps | src/tag.cpp:387-391 | the track gain and peak updates applied |
| Id3.Id3Tag.WriteAlbumSteps | src/tag.cpp:393-403 | the album updates in album mode, else the album removal, applied |
| Id3.Id3Tag.WriteExtraSteps | src/tag.cpp:405-421 | the extra updates in modes e and l, else the extra removal, applied |
| Id3.Id3Tag.WriteTags | src/tag.cpp:371-438 | the frames become the plan applied to them, and save is the start flag ORed with every step's change |
| Id3.Id3Tag.ClearTags | src/tag.cpp:440-473 | every ReplayGain frame goes, and the result says exactly whether the frames changed |
| TagManager.DispatchFails | src/tag.cpp:2080-2166 | a file is routed unless its container is unknown or it is Ogg with a codec other than Opus, Vorbis, FLAC and Speex; the type error cannot happen |
| TagManager.DispatchTable | src/tag.cpp:2080-2166 | each container name and Ogg codec selects its own format's functions |
| TagManager.DispatchMp4Family | src/tag.cpp:1989-1999 | every MP4 family name goes to the MP4 functions whatever the codec |
| TagManager.LowercaseReach | src/tag.cpp:811-861 | -L reaches only the ID3, ASF and MP4 writers, and a file that has its tag starts with save false |
| TagManager.ManagerResult | src/tag.cpp:2080-2166 | true only when the container lookup finds the name and, for Ogg, the codec is Opus, Vorbis, FLAC or Speex; such a file is routed and gets its format function's result |
| TagManager.HasRGTags | src/tag.cpp:2007-2078 | ok holds exactly when the file opened and the container lookup (with a handled codec for Ogg) succeeds; the result implies that lookup and is then the routed presence check |
| TagManager.UnknownFailsClosed | src/tag.cpp:2001-2255 | a file of unknown container or Ogg codec is never written, cleared or reported tagged, and is not ok |
| ThreadPool.DequeLaws | include/mvthreadpool/mvThreadPool.h:120-152 | a steal right after a push takes the pushed task and restores the queue; a pop takes the oldest task, the pushed one only on an empty queue; removal keeps the order of the rest |
| ThreadPool.WorkQueue.constructor | include/mvthreadpool/mvThreadPool.h:113 | a work queue starts empty |
| ThreadPool.WorkQueue.Push | include/mvthreadpool/mvThreadPool.h:120-124 | the task is appended at the back |
| ThreadPool.WorkQueue.Empty | include/mvthreadpool/mvThreadPool.h:126-130 | true exactly when the queue holds no task |
| ThreadPool.WorkQueue.TryPop | include/mvthreadpool/mvThreadPool.h:132-141 | succeeds exactly on a non-empty queue, then yields the front task and leaves the rest; otherwise nothing changes |
| ThreadPool.WorkQueue.TrySteal | include/mvthreadpool/mvThreadPool.h:143-152 | succeeds exactly on a non-empty queue, then yields the back task and leaves the rest; otherwise nothing changes |
| ThreadPool.ThreadCount | include/mvthreadpool/mvThreadPool.h:173-176 | the worker count is the argument, or the hardware concurrency when the argument is 0 |
| ThreadPool.VictimOrderVisitsAll | include/mvthreadpool/mvThreadPool.h:293-298 | the victim scan visits every queue index exactly once, and the worker's own queue last |
| ThreadPool.FirstNonEmpty | include/mvthreadpool/mvThreadPool.h:291-301 | the scan finds a queue holding a task that is in the order, and finds none exactly when every queue in the order is empty |
| ThreadPool.FirstNonEmptyAt | include/mvthreadpool/mvThreadPool.h:293-298 | a non-empty queue after only empty ones in the order is the one the scan finds |
| ThreadPool.PickPriority | include/mvthreadpool/mvThreadPool.h:266-279 | the own queue whenever it has work, the pool queue exactly when the own queue is empty and the pool has work, another non-empty queue only when both are empty, and no task exactly when every queue is empty |
| ThreadPool.QueueTasksUpdate | include/mvthreadpool/mvThreadPool.h:308 | replacing one worker queue swaps its tasks for the new queue's tasks in the multiset of queued tasks |
| ThreadPool.AllTasksUpdate | include/mvthreadpool/mvThreadPool.h:307-308 | the same for all tasks held by the pool |
| ThreadPool.TakeConserves | include/mvthreadpool/mvThreadPool.h:291-301 | taking the front task of a worker queue removes exactly that task from the pool's work |
| ThreadPool.TakePoolConserves | include/mvthreadpool/mvThreadPool.h:286-289 | taking the front task of the pool queue removes exactly that task from the pool's work |
| ThreadPool.IdleSweep | include/mvthreadpool/mvThreadPool.h:273-278 | workers finding no task in turn keep the number of idle flags |
| ThreadPool.IdleSweepSetsFlags | include/mvthreadpool/mvThreadPool.h:273-278 | during a wait every worker that found no task has its idle flag set and the others keep theirs; without a wait no flag changes |
| ThreadPool.Pool.constructor | include/mvthreadpool/mvThreadPool.h:171-194 | one empty queue and one cleared idle flag per worker, an empty pool queue, and both flags false |
| ThreadPool.Pool.Submit | include/mvthreadpool/mvThreadPool.h:200-212 | a worker pushes onto its own queue, any other thread onto the pool queue; nothing else changes and the pool's work gains exactly the task |
| ThreadPool.Pool.PopFromOtherQueue | include/mvthreadpool/mvThreadPool.h:291-301 | the first non-empty queue in victim order gives up its front task; when there is none nothing changes |
| ThreadPool.Pool.RunPendingTask | include/mvthreadpool/mvThreadPool.h:266-279 | the task comes from the source the priority names and leaves that queue's rest; with no task the worker's idle flag is set during a wait; a taken task leaves the pool's work |
| ThreadPool.Pool.StealOrIdle | include/mvthreadpool/mvThreadPool.h:269-277 | with both first queues empty the task comes from the first non-empty queue in victim order and leaves the pool's work; with none the idle flag is set during a wait |
| ThreadPool.Pool.AllIdle | include/mvthreadpool/mvThreadPool.h:220-223 | finished exactly when every idle flag is set |
| ThreadPool.Pool.WaitForIdleTurn | include/mvthreadpool/mvThreadPool.h:214-230 | the wait flag goes up; when every idle flag is set the wait ends, the wait flag is cleared and every idle flag reset; otherwise the wait goes on with the flags as they were |
| ThreadPool.Pool.WaitForFinishedTurn | include/mvthreadpool/mvThreadPool.h:232-239 | done is set exactly when the idle wait ends (or was already set) |

## Left out

- FFmpeg demuxing, decoding and resampling, and libebur128's measurement (src/scan.cpp:133-466): foreign library I/O. One scan attempt is a `ScanOutcome` value naming the stage where it ends and, on success, the loudness, range and channel peaks.
- libebur128's multi-state combines (src/scan.cpp:645-672): foreign numerics, given as function parameters.
- `pow(10, x/20)` and `20*log10(x)`: floating point. They are function parameters over `real`, and the clipping proofs take their laws (Clipping.DecibelLaws) as a hypothesis.
- TagLib's file handling: opening, validity checks, `save` and its version-dependent overloads, and the APE and ID3v1 stripping of `tag_write_mp3` (src/tag.cpp:425-437). Only the in-memory tag (a map of items, or a list of TXXX frames) is modelled. The save decision is modelled as the flag the writers compute.
- Tag value formatting (`snprintf` "%.2f", "%.6f", "%d"), `num2str`, CSV, tab and console output, and locale detection. The formatted values are a parameter per tag; the locale's decimal point is a constructor parameter.
- Filesystem discovery (`getSupportedAudioFiles`, `isSupportedAudioFile`, `isOnlyDirectories`, src/loudgain.cpp:304-374) and the regular-file check of the `AudioFile` constructor: they depend on the environment. The sorted file set is an input.
- The delete path (src/loudgain.cpp:402-414, 698-706): `removeReplayGainTags` returns at once in mode d, so as written it does nothing to a file. Library.ProcessRemovals models only the tasks it submits.
- Mode l: `setTagMode` refuses it, so the controller never reaches it. The tag writers still handle it as the source does.
- Folder.AudioFolder.constructor: requires at least one path. The source exits the program on an empty folder.
- Controller.LoudGain.SetTagMode: the program exit on a bad mode is modelled as the result false with the mode unchanged.
- The iteration order of TagLib's maps: a removal or update is stated as the set of keys it keeps. No order of visits is fixed, so erasing from an ASF attribute map while iterating it is not modelled.
- Xiph comment keys are assumed upper case for the presence check after a write (TagStore.WritePresence requires it), as TagLib stores them.
- TagKeys.Q78: the `(int)` cast of `gain_to_q78num` is unbounded here. A gain outside the int range (beyond 8388607 dB) is not modelled.
- Interpretation of the tag modes: `ExpectedCount` follows the presence functions, which treat only e as extended. The writers treat e and l alike; TagKeys.ExpectedMatchesWritten states the gap for l.
- The APE, ASF, MP4 and WavPack writers share one step sequence with the FLAC writer: TagStore.Store.WriteTags, over their backend's update and removal. The per-format file objects around them are left out.
- TagStore.StepResult / TagStore.Store.ApplyStep: the MP4 writer's update step uses the corrected MP4 update of the Findings row (TagStore.Mp4Updated, TagStore.Store.UpdateMp4), not tag_update_mp4 as written (TagStore.Mp4UpdatedAsWritten). So TagStore.Applied, TagStore.WriterOutcome, TagStore.WriterSettles, TagStore.WriterSaveIffChanged, TagStore.WriterIdempotent, TagStore.WritePresence and TagStore.Store.WriteTags describe a corrected tag_write_mp4 at the MP4 backend.
- Threads, mutexes, atomics, `thread_local` binding, CPU affinity, futures and the joiner (include/mvthreadpool/mvThreadPool.h:29-48, 243-264, 305-318): the concurrency cannot be verified sequentially. Each operation is one atomic step of a sequential `Pool`. A worker's identity is passed in as an index (for `submit`, as an optional worker).
- Library.AggregatedAfterScans / ThreadPool.Pool.RunPendingTask: in the source run_pending_task is not one atomic step. A worker's queue misses and its read of the wait flag (include/mvthreadpool/mvThreadPool.h:268-279) are separate steps. So a worker can miss, then the controller can submit a scan (src/loudgain.cpp:444) and start wait_for_idle, and only then can the worker set its idle flag. A worker can also set a stale idle flag after the reset at include/mvthreadpool/mvThreadPool.h:227-229. Either way a wait can end before every submitted task has run. The trace properties treat a barrier as the end of every earlier task, so they do not capture these interleavings.
- ThreadPool.Pool.WaitForIdleTurn: `wait_for_idle` spins until every idle flag is set, which needs other threads to run. The model states one turn of its loop. ThreadPool.IdleSweepSetsFlags shows that workers finding no work during a wait set their flags.
- ThreadPool.Pool.WaitForFinishedTurn: joining the threads is left out; only the done flag is modelled.
- The pool keeps its worker queues as values inside `Pool`. `WorkQueue` models one `mvWorkStealingQueue` object and its four operations on their own; the sharing of queue objects between threads is not modelled.
- Running a task: ThreadPool.Pool.RunPendingTask returns the task instead of calling it.
- src/main.cpp (argument parsing, version output and timing) is not part of this model.

## Findings

| source | as written | input that shows it | evidently intended | confidence | as-written member | corrected member |
|---|---|---|---|---|---|---|
| src/tag.cpp:1242-1245 | on an exact match of the prefixed MP4 key, `tag_update_mp4` reads and overwrites the item under the bare ReplayGain name | an MP4 tag with only "----:com.apple.iTunes:REPLAYGAIN_TRACK_GAIN" = ["1.00 dB"], updated to "2.00 dB": the prefixed item keeps "1.00 dB" and a new item "REPLAYGAIN_TRACK_GAIN" appears | read and write the prefixed key, so the prefixed item holds the new value and nothing else is added | high; not executed | TagStore.Mp4AsWrittenLeavesStale | TagStore.Mp4UpdatedSound |
