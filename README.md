# speech-prep: a verified model of the recording and speech-scoring core

speech-prep is a voice-recording app. It keeps recordings in a local,
newest-first list. It can also send a recording to a backend. The backend has
a transcription provider transcribe the audio, then turns the result into a
confidence score from 0 to 100 and a short list of coaching tips. This project
models the parts of the app that are plain logic, and proves what they
promise:

- **Scoring** (`SpeechScore`, `speech_score.dfy`). This covers the filler
  count, the mean sentiment, the words-per-minute rate, the rounded
  confidence and the ordered tips. Numbers are exact reals, and `Math.round`
  is floor(x + 1/2).
- **The `/analyze` request** (`AnalyzeEndpoint`, `analyze_endpoint.dfy`).
  This covers the poll loop, the error answers and the `finally` cleanup of
  the temporary upload. The provider's answers are inputs: an error message
  for each step that throws, and the job reports of successive polls.
- **The recording store** (`RecordingStore.RecordingService`,
  `recording_service.dfy`). This is a class whose `stored` field is the list
  kept under the storage key; `None` means the key is missing. Save puts the
  new item first. Delete filters out an id. Rename changes the name of the
  first entry with the id. The newer save (frontend) and the older one
  (services/) are separate methods. Delete, rename and list are the same in
  both files, so each is one method here.
- **Duration labels** (`AudioPlayer.FormatTime` "M:SS" and
  `RecordingTimer.FormatTime` "MM:SS"). Both are built on the decimal text and
  padding functions of `Decimal`. `Decimal.ParseClock` reads a label back, so
  round trips can be stated.
- **The player's control state** (`AudioPlayer.Player`). This is a class with
  the four state hooks of the component: the loaded sound (a handle),
  `isPlaying`, `position` and `isLoading`. It also keeps a log of the sounds
  `loadAndPlaySound` unloaded.

Record shapes follow frontend/types/Recording.ts (`RecordingTypes`). Clock
readings, platform, file existence and size, storage read failures and
provider answers are all parameters.

Some of the code's behaviour differs from what a reader might expect. The
model follows the code, except for the inputs noted as excluded:

- Delete removes every entry with the id, not exactly one.
- Excluded: an empty but present sentiment list gives 0/0 (NaN) in the code,
  not 0. A word list with a zero duration gives n/0, which is Infinity, or
  NaN when the list is empty. A negative duration gives a finite negative
  rate. The model excludes all these inputs instead (see
  `SpeechScore.Scorable`).
- With exact arithmetic the confidence cannot exceed 100. For a mean
  sentiment in [0, 1] it lies in [33, 100].
- The temporary file is deleted only when a file was received. It is not
  deleted while polling has not ended, because the `finally` block is never
  reached then.

`getRecordings` turns a failed storage read into an empty list. The model
keeps what follows from that. A save after a failed read writes `[item]` and
so replaces what was stored. Delete or rename after a failed read writes
nothing.

## Model

| member | source | states |
|---|---|---|
| SpeechScore.Fillers | backend/index.js:46 | The filtered list keeps exactly the entities whose type is 'filler' and is no longer than the input. |
| SpeechScore.FillerCount | backend/index.js:46 | The filler count is 0 when `entities` is absent and otherwise at most the number of entities. |
| SpeechScore.FillerCountIsFillerPositions | backend/index.js:46 | The filler count equals the number of positions whose entity has type 'filler'. |
| SpeechScore.SentimentValue | backend/index.js:48 | A label is worth 1 exactly for POSITIVE, 0.5 exactly for NEUTRAL and 0 for every other label. |
| SpeechScore.SentimentSum | backend/index.js:48 | The reduce over n segments lies between 0 and n. |
| SpeechScore.SentimentSumByLabel | backend/index.js:47-49 | The sum is the number of POSITIVE segments plus half the number of NEUTRAL segments. |
| SpeechScore.SentimentScore | backend/index.js:47-49 | The mean sentiment lies in [0, 1] and is 0 when the result list is absent. An empty present list is excluded. |
| SpeechScore.SentimentScoreExtremes | backend/index.js:47-49 | All-POSITIVE segments score exactly 1. Segments with no POSITIVE or NEUTRAL label score exactly 0. |
| SpeechScore.SpeakingRate | backend/index.js:50 | The rate is non-negative and is 0 without a word list. A word list needs a positive duration. |
| SpeechScore.RateInBand | backend/index.js:50-51 | The rate is in [120, 150] words per minute exactly when there are 2 to 2.5 words per second of audio. |
| SpeechScore.Round | backend/index.js:51 | `Math.round` gives the integer r with r - 1/2 <= x < r + 1/2, so halves round up. |
| SpeechScore.Confidence | backend/index.js:51 | For a mean sentiment in [0, 1] the confidence is in [33, 100]. It is 100 with perfect inputs and 33 with the worst. |
| SpeechScore.TipsFor | backend/index.js:53-57 | Tone tip iff sentiment < 0.7. Filler tip iff fillers > 5. "Slow down" iff rate > 150. "Speak faster" iff rate < 120. Neither rate tip iff the rate is in [120, 150]. At most three tips, strictly in the order tone, filler, rate. |
| SpeechScore.CollectTips | backend/index.js:53-57 | The `push` sequence yields exactly the tip list specified by TipsFor. |
| SpeechScore.Score | backend/index.js:46-59 | The response carries the transcript text, a confidence in [33, 100] and at most three tips. |
| SpeechScore.FillerBoundary | backend/index.js:51-55 | At exactly 5 fillers there is no filler tip, yet the filler term already costs 15 points. At 6 fillers the tip appears. |
| SpeechScore.BestTalkExample | backend/index.js:51-57 | Sentiment 1, no fillers and 135 wpm give confidence 100 and no tips. |
| SpeechScore.HurriedTalkExample | backend/index.js:51-57 | Sentiment 0.5, 8 fillers and 160 wpm give confidence 53 and the tone, filler and slow-down tips in that order. |
| AnalyzeEndpoint.FirstTerminal | backend/index.js:33-42 | The result is the position of the first poll that threw or reported 'completed' or 'error'; every earlier poll succeeded with a non-terminal status. |
| AnalyzeEndpoint.PollTranscript | backend/index.js:32-44 | Polling ends on the first poll that throws or reports a terminal status. A thrown poll yields its error message, 'completed' yields that report and 'error' fails. Otherwise polling continues. The number of 5-second waits equals the number of polls before the one that ends the loop. |
| AnalyzeEndpoint.Analyze | backend/index.js:14-65 | A missing file gives 500 "No audio file uploaded". A thrown read, upload, submit or poll error gives 500 with its message. A failed job gives 500 "Transcription failed". A completed job gives 200 with its score, with a confidence in [33, 100]. On every path that answers, the received file is deleted exactly once. Only the completed report that is actually scored must be scorable. |
| RecordingStore.FirstIndexOf | frontend/services/RecordingService.ts:195 | `findIndex` gives -1 iff no entry has the id, and otherwise the first position holding it. |
| RecordingStore.WithoutId | frontend/services/RecordingService.ts:183 | The filtered list holds exactly the entries of the input whose id differs. |
| RecordingStore.WithoutIdLength | frontend/services/RecordingService.ts:183 | The filtered list's length is the old length minus the number of entries with the id. |
| RecordingStore.WithoutIdAppend | frontend/services/RecordingService.ts:183 | Filtering keeps relative order: filtering a + b gives the filtered a followed by the filtered b. |
| RecordingStore.WithoutIdAbsent | frontend/services/RecordingService.ts:183 | Filtering out an id that no entry has returns the list unchanged. |
| RecordingStore.SaveThenDelete | frontend/services/RecordingService.ts:144-184 | Deleting the fresh id of a just-saved item gives back the list as it was before the save. |
| RecordingStore.RecordingService.constructor | frontend/services/RecordingService.ts:11-18 | The recordings directory is empty on the web and is the document directory plus "recordings/" elsewhere. |
| RecordingStore.RecordingService.GetRecordings | frontend/services/RecordingService.ts:155-166 | The result is the stored list, or the empty list when the key is missing or the read fails. The same holds for services/RecordingService.ts:88-99. |
| RecordingStore.RecordingService.SaveRecording | frontend/services/RecordingService.ts:89-153 | On the web: the not-supported error and no change. A missing or empty URI, a missing file, or a move that throws: its error and no change. Otherwise the new item is stored first and the earlier items keep their order (`[item] + old`). The item carries the given duration, the size or 0, and the analysis; a failed analysis is absent, not an error. |
| RecordingStore.RecordingService.SaveRecordingUri | services/RecordingService.ts:48-86 | On the web: the not-supported error and no change. A move or size lookup that throws: its message and no change. Otherwise the item, with the size or 0, the given duration and no analysis, is stored first (`[item] + old`). |
| RecordingStore.RecordingService.DeleteRecording | frontend/services/RecordingService.ts:168-190 | With an id present, the store becomes the read list without every entry with that id. With the id absent, the store is unchanged. The same holds for services/RecordingService.ts:101-123. |
| RecordingStore.RecordingService.RenameRecording | frontend/services/RecordingService.ts:192-205 | Only the first entry with the id changes, and only in its name. An unknown id leaves the store unchanged. The same holds for services/RecordingService.ts:125-138. |
| Decimal.NatToString | components/RecordingTimer.tsx:18 | `toString()` yields at least one digit, with a leading '0' only for 0. |
| Decimal.NatToStringRoundTrip | components/RecordingTimer.tsx:18 | Reading back the decimal text of n gives n. |
| Decimal.NatToStringLength | components/RecordingTimer.tsx:18 | The text has one digit iff n < 10 and at most two digits iff n < 100. |
| Decimal.PadStart2 | components/RecordingTimer.tsx:18 | `padStart(2, '0')` yields max(2, length) characters, ends with the input and is '0' before it. |
| Decimal.PadStart2Value | components/RecordingTimer.tsx:18 | Padding a digit string keeps its value. |
| RecordingTimer.FormatTime | components/RecordingTimer.tsx:14-19 | The label is at least 5 characters: digits, a ':' third from the end, then two digits. |
| RecordingTimer.FormatTimeRoundTrip | components/RecordingTimer.tsx:15-18 | The label reads back as (minutes, seconds) with 60 * minutes + seconds = floor(ms / 1000) and seconds < 60. |
| RecordingTimer.FormatTimeLength | components/RecordingTimer.tsx:15-18 | The label is exactly 5 characters iff ms < 6,000,000. |
| RecordingTimer.FormatTimeInitial | components/RecordingTimer.tsx:11-18 | The label is the initial display "00:00" iff ms < 1000. |
| AudioPlayer.FormatTime | frontend/components/AudioPlayer.tsx:82-87 | The label is at least 4 characters: digits, a ':' third from the end, then two digits. |
| AudioPlayer.FormatTimeRoundTrip | frontend/components/AudioPlayer.tsx:83-86 | The label reads back as (minutes, seconds) with 60 * minutes + seconds = floor(ms / 1000) and seconds < 60. |
| AudioPlayer.FormatTimeMinutesUnpadded | frontend/components/AudioPlayer.tsx:86 | Minutes are not padded: the label starts with '0' iff ms < 60000, and 5000 ms gives "0:05". |
| AudioPlayer.Player.constructor | frontend/components/AudioPlayer.tsx:13-16 | The player starts with no sound, not playing, at position 0 and not loading. |
| AudioPlayer.Player.LoadAndPlay | frontend/components/AudioPlayer.tsx:26-59 | Any current sound is unloaded. A created sound becomes current and plays; a failed creation leaves sound and playing flag as they were. Afterwards nothing is loading. |
| AudioPlayer.Player.Pause | frontend/components/AudioPlayer.tsx:61-66 | A loaded sound stops playing. Without a sound nothing changes. |
| AudioPlayer.Player.Resume | frontend/components/AudioPlayer.tsx:68-73 | A loaded sound plays. Without a sound nothing changes. |
| AudioPlayer.Player.SeekTo | frontend/components/AudioPlayer.tsx:75-80 | A loaded sound's position becomes the value. Without a sound nothing changes. |
| AudioPlayer.Player.OnPlaybackStatus | frontend/components/AudioPlayer.tsx:41-53 | A loaded status copies its position (0 when absent) and playing flag. On `didJustFinish` the player stops at position 0. A not-loaded status changes nothing. |
| AudioPlayer.Player.HandlePlayPause | frontend/components/AudioPlayer.tsx:89-97 | With no sound it loads and plays. While playing it pauses. Otherwise it resumes. |

## Left out

- The network calls to the transcription provider (upload, job creation, status polls) are not modelled. Their results are parameters: an error message for each step that throws, and a finite sequence of poll results, each a job report or the message of a poll that threw. The `axios`/`FormData` wrappers in frontend/services/api-client.ts and frontend/services/audio-services.ts are not part of this model.
- The 5-second `setTimeout` wait is not modelled; only the number of waits is counted. The loop's unboundedness is cut off at the given reports: when none is terminal, the model answers `NoResponse`, where the handler would keep polling.
- AnalyzeEndpoint.Analyze: a failure of `fs.unlink` in the `finally` block is not modelled.
- SpeechScore.Confidence, SpeechScore.SpeakingRate and SpeechScore.SentimentScore: IEEE floating point is not modelled. Reals are exact, so rounding at a .5 boundary and values such as 0.3 * 100 may differ from JavaScript by the last bit.
- SpeechScore.Scorable: an empty but present sentiment list (NaN in JavaScript) and a word list with a zero or negative duration are excluded by precondition rather than modelled. In JavaScript a zero duration gives a rate of Infinity (the slow-down tip), or NaN for an empty list; a negative duration gives a negative rate (the speak-faster tip).
- RecordingStore.RecordingService: each operation is one atomic step. In the code every save, delete and rename awaits between reading the list and writing it back, so two overlapping calls can lose an update; that interleaving is not modelled.
- AsyncStorage, JSON serialisation and the file system are not modelled. The store is the in-memory `stored` field. File existence and size are parameters. Write failures of `setItem` are not modelled.
- RecordingStore.RecordingService.DeleteRecording: the removal of the recording's file from the file system on native platforms is not modelled.
- RecordingStore.RecordingService.SaveRecording: failures of `stopAndUnloadAsync` and `getInfoAsync`, which are rethrown, are not modelled. A throwing `moveAsync` is.
- The recorder lifecycle (`startRecording`) and `ensureDirectoryExists` are not modelled; they only call the device's audio and file APIs.
- `Date.now()` and the locale date and time functions are not modelled; their readings are parameters (`RecordingStore.Clock`).
- AudioPlayer.Player: failures of `pauseAsync`, `playAsync`, `setPositionAsync` and `unloadAsync` are not modelled. Neither are the interleaving of asynchronous handlers or the forwarding of statuses to `onPlaybackStatusUpdate`. A status is assumed to come only from a loaded sound.
- AudioPlayer.FormatTime and RecordingTimer.FormatTime take a non-negative whole number of milliseconds. Negative or fractional inputs are not modelled.
- AudioPlayer.Player.SeekTo: the position is a whole number of milliseconds, but the slider can pass fractional values; these are not modelled.
- AudioPlayer.Player: the `useEffect` cleanup that unloads a replaced sound again and unloads the current one when the component unmounts is not modelled. The `unloaded` log holds only the explicit unload in `loadAndPlaySound`.
- frontend/components/WaveformVisualization.tsx is not modelled; it is random, animated and float-driven.
- React rendering, styles and hook plumbing are not modelled.
