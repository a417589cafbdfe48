# juicy-tunes-band, modelled in Dafny

juicy-tunes-band is a band's song library. Songs are uploaded one at a time or as albums. Each upload is analysed for tempo and musical key. The songs can be played with a metronome and arranged into setlists that are split into numbered sets. A small family of "agents" (base agent, setlist, metadata, lyrics, realtime, error watcher, UI) wraps the data operations, and React hooks and components drive them.

This project models the core of that system:

- **Analysis engines.** Every tempo and key engine is modelled: the worker (`public/audioWorker.js`), `tempoDetection.ts` and `keyDetection.ts`, and the hook-side engines (`tempoAnalysis.ts`, `keyAnalysis.ts`, `meydaProcessor.ts`, `simpleAudioProcessor.ts`, `essentiaProcessor.ts`, `audioUtils.ts`). The model covers their onset and energy envelopes, peak picking, interval statistics, histograms, autocorrelation scans, tempo folding and clamping, chroma accumulation and the Krumhansl–Schmuckler key choice. Each of these is an imperative method proved against a specification function. Lemmas about those functions state what the engines promise: tempo bounds, folding ranges, the key chosen being the best-scoring one, and normalisation not changing the key.
- **Agents.** The agents' in-memory state is modelled as classes: the task map and message handlers of `BaseAgent`, the error log of `ErrorWatcherAgent`, the subscriptions of `RealtimeAgent`, and the notification and modal state of `UIAgent`. The table operations of `SetlistAgent`, which keep song positions contiguous within each setlist, are modelled over an abstract table. Also modelled are the per-field fallbacks of `MetadataAgent` and the lyrics bookkeeping of `LyricsAgent`.
- **Hooks and components.** The model covers the reducers and pure logic of the song, setlist, player and upload hooks, and of the library, setlist, player, metronome, editor and progress components. That includes filters and sort orders, set numbering, drag-and-drop reordering, time formatting, seeking, and form validation.

The browser (Web Audio, the audio element, timers), Supabase and the foreign analysis libraries are not modelled. Their results are parameters of the model.

**Tempo parameters, file by file.** The tempo engines share their shape but not their constants, and each is modelled with its own:
- `public/audioWorker.js` picks onset peaks above the mean plus 1.2 standard deviations, with a radius of 3 and a minimum spacing of 0.25 s. It keeps intervals from 0.3 to 2.5 s among the first 49 gaps, takes their median, and corrects it by octaves towards 70–180 BPM. Its first onset value is 0. Its autocorrelation fallback folds into 70–180.
- `tempoDetection.ts` picks peaks above 1.5 times the mean, with a radius of 2 and no spacing rule. It keeps intervals from 0.3 to 2.0 s among the first 99 gaps and builds a 100-bin histogram. It folds into 80–160 and then clamps to 60–200. Its first flux value is the sum of the first spectrum.
- `meydaProcessor.ts` uses a radius of 2 and 20 intervals from 0.3 to 2.0 s, and clamps to 70–180.
- `simpleAudioProcessor.ts` uses a radius of 1 and 10 intervals, and folds into 80–160.
- `tempoAnalysis.ts` uses a radius of 1 and 50 intervals from 0.25 to 2.0 s. Its fallback folds into 70–180.
- `essentiaProcessor.ts` folds the library's estimate into 70–180.

Every octave fold (`while (bpm < lo) bpm *= 2; while (bpm > hi) bpm /= 2`) is specified by the reference function `Folding.Fold`. The loops are proved to compute exactly that value, and `Folding.FoldFacts` proves the value lies in [lo, hi], is an octave move of the start, and equals the start when the start is already in range.

**Conventions.**
- Numbers are mathematical reals. `Math.round` is `floor(x + 0.5)`.
- JavaScript's falsy values are modelled explicitly: a missing or empty string, and a missing or zero number.
- `Array.prototype.sort` is modelled by a stable insertion sort (`Ordering.SortBy`). Its sortedness and permutation facts are proved.

## Model

| member | source | states |
|---|---|---|
| AddSongToSetlist.Candidates | src/components/AddSongToSetlistModal.tsx:25-32 | the offered songs are a sub-list of the library |
| AddSongToSetlist.CandidatesExact | src/components/AddSongToSetlistModal.tsx:26-32 | a song is offered exactly when it is in the library, not yet in the setlist, and its title, artist or album contains the lower-cased term; the empty term matches every song |
| AddSongToSetlist.CandidatesExcludeAdded | src/components/AddSongToSetlistModal.tsx:26-28 | a song already in the setlist is never offered |
| AddSongToSetlist.MaxSet | src/components/AddSongToSetlistModal.tsx:35-36 | the highest set number is at least 0 and at least every set number, and is either 0 or one of them |
| AddSongToSetlist.SuggestedSetCases | src/components/AddSongToSetlistModal.tsx:37 | an empty setlist suggests set 1; otherwise the suggestion is the highest set number |
| AddSongToSetlist.MaxPosition | src/components/AddSongToSetlistModal.tsx:40-41 | the highest position of the chosen set is at least 0 and at least every position in it |
| AddSongToSetlist.SuggestedPositionAfterAll | src/components/AddSongToSetlistModal.tsx:40-42 | the suggested position is at least 1 and after every song of the chosen set |
| AddSongToSetlist.Submission | src/components/AddSongToSetlistModal.tsx:44-55 | no request without a selected song; the request names the setlist, the song and the parsed set number, and a typed position is used as parsed |
| AddSongToSetlist.SubmissionAppendsByDefault | src/components/AddSongToSetlistModal.tsx:48 | with no typed position the song is placed after every song of its set |
| AddSongToSetlist.SetOptions | src/components/AddSongToSetlistModal.tsx:146-147 | the selector has maxSet + 2 options |
| AddSongToSetlist.SetOptionsCover | src/components/AddSongToSetlistModal.tsx:146-150 | option i is set i + 1, every existing set is offered, and so are the two sets after the highest |
| AddSongToSetlist.OptionCountAsWritten | src/components/AddSongToSetlistModal.tsx:148 | as written: an option carries a count exactly for sets up to maxSet |
| AddSongToSetlist.OptionCountAsWrittenMiscounts | src/components/AddSongToSetlistModal.tsx:148 | with set 1 chosen, the option for set 2 shows 2 songs where set 2 has 1 |
| AddSongToSetlist.OptionCount | src/components/AddSongToSetlistModal.tsx:148 | corrected: the count for set i + 1 is the size of that set's group |
| AnalysisProgressIndicator.Percentage | src/components/AnalysisProgressIndicator.tsx:21 | for a batch with a size the percentage times the total is 100 times the current count, in 0..100 when current <= total; 0 without a size |
| AnalysisProgressIndicator.CompleteIsFull | src/components/AnalysisProgressIndicator.tsx:21-22 | a batch is complete exactly when it has a size and stands at 100 percent |
| AnalysisProgressIndicator.Render | src/components/AnalysisProgressIndicator.tsx:17-19 | nothing is shown exactly when not processing, with no batch and no song in analysis |
| AnalysisProgressIndicator.RenderShows | src/components/AnalysisProgressIndicator.tsx:24-65 | a shown panel spins while processing, says "Analysis Complete" exactly for a complete batch, has a bar exactly for a batch with a size whose rounded label lies in 0..100, and notes individual analysis exactly outside a batch |
| AnalysisProgressIndicator.StatusOutsideBatch | src/components/AnalysisProgressIndicator.tsx:39-42 | outside a batch the status reads "n song processing" exactly for n = 1 and "n songs processing" otherwise |
| AnalysisProgressIndicator.LabelRoundsUpBeforeComplete | src/components/AnalysisProgressIndicator.tsx:36-54 | at 199 of 200 the heading still says "Analyzing Audio" while the label rounds to 100 |
| AnalysisUtils.FilterUnanalyzedSongs | src/hooks/audioAnalysis/utils.ts:4-12 | the result keeps exactly the songs with an audio file, not in analysis, lacking a truthy tempo or key |
| AnalysisUtils.FilterConcat | src/hooks/audioAnalysis/utils.ts:10-12 | filtering a concatenation concatenates the filtered parts, so the order is kept |
| AnalysisUtils.FilterIdempotent | src/hooks/audioAnalysis/utils.ts:10-12 | filtering twice gives the same list as filtering once |
| AnalysisUtils.AddSong | src/hooks/audioAnalysis/utils.ts:15-17 | the new set holds the id and everything in the old set, nothing else |
| AnalysisUtils.RemoveSong | src/hooks/audioAnalysis/utils.ts:19-23 | the new set lacks the id and holds everything else of the old set, nothing more |
| AnalysisUtils.RemoveAbsent | src/hooks/audioAnalysis/utils.ts:19-23 | removing an absent id leaves the set equal |
| AnalysisUtils.RemoveAfterAdd | src/hooks/audioAnalysis/utils.ts:15-23 | adding a new id and removing it restores the set |
| AnalysisUtils.AddIdempotent | src/hooks/audioAnalysis/utils.ts:15-17 | adding the same id twice equals adding it once |
| AnalysisUtils.AnalyzingSongIsSkipped | src/hooks/audioAnalysis/utils.ts:4-12 | a song whose id was added to the analysing set is not selected |
| AnalysisUtils.FinishedSongNeedsMissingField | src/hooks/audioAnalysis/utils.ts:4-23 | after its id is removed, a song with an audio file is selected again exactly while its tempo or key is missing |
| AnalysisUtils.AnalysedSongIsSkipped | src/hooks/audioAnalysis/utils.ts:4-8 | a song with a truthy tempo and key, or without an audio file, is never selected |
| Argmax.FirstStrictMaxStep | src/hooks/audioAnalysis/keyAnalysis.ts:114-117 | one more `if (score > best)` step keeps "the first index of the greatest score that beats the start value" |
| Argmax.FirstStrictMaxUnique | src/hooks/audioAnalysis/keyAnalysis.ts:110-130 | the winner of a running-best scan is determined by the scores and the start value alone |
| Argmax.NegInfinityAlwaysWins | src/utils/audioAnalysis/tempoDetection.ts:146-153 | a scan from -Infinity over a non-empty sequence always picks an index |
| Argmax.FirstStrictMaxDivided | src/hooks/audioAnalysis/keyAnalysis.ts:110-130 | dividing every score by one positive number keeps the winner of a scan from -Infinity, both ways |
| AudioUtils.HighPassRecurrence | src/hooks/audioAnalysis/audioUtils.ts:26-29 | the high-pass output starts with the first sample and every later output is alpha * (previous output + sample - previous sample) |
| AudioUtils.HighPassCausal | src/hooks/audioAnalysis/audioUtils.ts:26-29 | the first n outputs depend only on the first n samples |
| AudioUtils.HighPassPrefixes | src/hooks/audioAnalysis/audioUtils.ts:26-29 | two inputs that agree on the first n samples give the same first n outputs |
| AudioUtils.HighPassOfConstant | src/hooks/audioAnalysis/audioUtils.ts:26-29 | a constant input c gives c * alpha^i at sample i: the filter removes the DC level |
| AudioUtils.HighPassFilter | src/hooks/audioAnalysis/audioUtils.ts:21-31 | the loop's buffer equals the high-pass recurrence over the first n samples |
| AudioUtils.ApplyHighPassFilter | src/hooks/audioAnalysis/audioUtils.ts:20-32 | applyHighPassFilter returns the recurrence over the whole input |
| AudioUtils.HighPassAlpha | src/hooks/audioAnalysis/audioUtils.ts:22-24 | rc / (rc + dt) lies strictly between 0 and 1 |
| AudioUtils.LowPassAlpha | src/hooks/audioAnalysis/audioUtils.ts:7-9 | dt / (rc + dt) lies strictly between 0 and 1 |
| AudioUtils.AlphasComplementary | src/hooks/audioAnalysis/audioUtils.ts:9-24 | the high-pass and low-pass coefficients for one cutoff add up to 1 |
| AudioUtils.LowPassWithinRange | src/hooks/audioAnalysis/audioUtils.ts:11-14 | with a coefficient in [0, 1] every low-pass output stays within the range of the input |
| AudioUtils.ApplyLowPassFilter | src/hooks/audioAnalysis/audioUtils.ts:5-17 | applyLowPassFilter's buffer equals the low-pass recurrence over the whole input |
| AudioUtils.SpectralCentroid | src/hooks/audioAnalysis/audioUtils.ts:35-46 | the loop returns numerator / denominator of the frequency-weighted magnitudes, or 0 when the denominator is not positive |
| AudioUtils.BinFrequencyBounds | src/hooks/audioAnalysis/audioUtils.ts:40 | every bin frequency lies between 0 and the top bin's frequency |
| AudioUtils.WeightedFrequenciesBounds | src/hooks/audioAnalysis/audioUtils.ts:39-43 | for non-negative magnitudes the numerator lies between 0 and the top frequency times the denominator |
| AudioUtils.CentroidWithinBand | src/hooks/audioAnalysis/audioUtils.ts:35-46 | for a non-negative spectrum the centroid lies between 0 and the top bin's frequency, which is at most sampleRate / 2 |
| AudioWorker.PositiveFluxNonNeg | public/audioWorker.js:83-89 | the positive spectral flux between two spectra is never negative |
| AudioWorker.OnsetNonNeg | public/audioWorker.js:82-93 | the onset envelope starts at 0 and is non-negative throughout |
| AudioWorker.OnsetEnvelope | public/audioWorker.js:50-102 | the window loop's envelope is 0 for the first window and the root of the positive flux against the previous window's spectrum for every later one |
| AudioWorker.CalculateStatistics | public/audioWorker.js:364-372 | the mean is at most the maximum, the deviation is non-negative, the maximum is an element at least every element, and the mean of non-negative values is non-negative |
| AudioWorker.MeanNonNegIfNonNeg | public/audioWorker.js:365-366 | the mean of non-negative values is non-negative |
| AudioWorker.OctaveChain | public/audioWorker.js:159-161 | the three-step correction puts every tempo of (24, 200) into [70, 180] |
| AudioWorker.IntervalTempoRange | public/audioWorker.js:143-156 | a kept interval strictly between 0.3 s and 2.5 s gives a tempo strictly between 24 and 200 |
| AudioWorker.DetectTempo | public/audioWorker.js:18-171 | under 5 s of samples the tempo is 120; 5 s but less than one 2048-sample window throws (no tempo); otherwise the tempo is in [60, 200] and is exactly the onset route's: the peak median or, failing the peak and interval counts, the autocorrelation outcome over the same samples |
| AudioWorker.FrameCount | public/audioWorker.js:46 | the frames counted all fit inside the analysed samples |
| AudioWorker.SampleRateOfFrames | public/audioWorker.js:28-46 | reaching the frame loop needs a sample rate of at least 35 |
| AudioWorker.OnsetRoute | public/audioWorker.js:105-171 | the outcome of detectTempo's onset path: a tempo in [60, 200]; the peaks of radius 3 from frame 3 above mean + 1.2 std, a quarter second apart; with 8 peaks or more the intervals are the gaps of the first 50 peaks strictly between 0.3 s and 2.5 s; the peak route exactly with 8 peaks and 4 intervals, giving the corrected median tempo plus jitter, rounded and clamped; otherwise an autocorrelation outcome |
| AudioWorker.TempoFromOnset | public/audioWorker.js:105-171 | the peaks are the spaced radius-3 peaks above mean + 1.2 std; the intervals are the gaps of the first 50 peaks strictly between 0.3 s and 2.5 s; the peak path is taken exactly with at least 8 peaks and 4 intervals and then gives the corrected median tempo; otherwise the tempo is an autocorrelation outcome of the samples |
| AudioWorker.MedianTempo | public/audioWorker.js:153-170 | the median interval lies in (0.3, 2.5) and the tempo is 60 / median through the octave chain, plus jitter, rounded and clamped to [60, 200] |
| AudioWorker.AutocorrelationFallback | public/audioWorker.js:134-150 | the fallback tempo is the autocorrelation outcome of the samples for some first-strict-maximum lag choice, and lies in [60, 200] |
| AudioWorker.AutocorrelationTempo | public/audioWorker.js:174-215 | the chosen lag is the first strict maximum from -1 of the mean products over every 8th lag (the shortest lag when none beats -1); the tempo is round(clamp(Fold(60 sr / lag, 70, 180) + jitter, 60, 200)), so it lies in [60, 200] |
| AudioWorker.DetectKey | public/audioWorker.js:218-303 | the chroma is the octave 2..6 note energies of at most 30 windows, divided by its maximum when positive; the key is the name of the first strict maximum of the 24 normalised template scores, passed through the random override, and is a key name whenever it is defined |
| AudioWorker.AccumulateWindows | public/audioWorker.js:230-289 | the window loop's chroma is the accumulated note energies of the windows it takes |
| AudioWorker.KeyOverride | public/audioWorker.js:352-357 | without the draw, or with an index-weighted chroma sum of 3 or less, the scanned key stands; otherwise the key is the override list's entry at floor(sum / 2), which is at least 1 (so "F Major" is never chosen), and undefined once that index passes 5 |
| AudioWorker.OverrideKeysAreKeyNames | public/audioWorker.js:354 | each of the six override keys is one of the 24 key names |
| AudioWorker.OverrideRunsPastList | public/audioWorker.js:352-356 | a chroma of twelve 1s weighs 66, the override index is 33, and a drawn override leaves the key undefined |
| AudioWorker.AnalyzeKeyFromChromagram | public/audioWorker.js:305-360 | the key is the name of the first strict maximum, from -Infinity, of the major and minor scores against the norm-divided templates, then the random override over the same chroma; a defined key is a key name |
| AudioWorker.SilenceIsCMajor | public/audioWorker.js:321-349 | an all-zero chroma is reported as "C Major" |
| AudioWorker.NormalizedChromaRange | public/audioWorker.js:292-297 | for non-negative spectra the normalised chroma lies in [0, 1] with an entry equal to 1, unless it is all zero |
| AudioWorker.OnMessage | public/audioWorker.js:375-433 | the reply names the song; a success has a tempo in [60, 200] and a key that is a key name when defined, and always defined without the override draw; a failure happens exactly on the too-few-frames error and carries the error's text |
| Averaging.AverageIsColumnMean | src/hooks/audioAnalysis/meydaProcessor.ts:249-254 | each entry of the accumulated average is the mean of that entry's column over all frames |
| Averaging.PartialAverage | src/hooks/audioAnalysis/meydaProcessor.ts:250-254 | after k frames an entry holds the sum of its column's first k values over the frame count |
| Averaging.AverageNonNeg | src/hooks/audioAnalysis/simpleAudioProcessor.ts:192-197 | non-negative frames average to non-negative entries |
| BaseAgent.UpdatedTask | src/agents/BaseAgent.ts:73-94 | id, owner, type and creation time are kept; status, progress and update time are always written; the result only when given and the error only when given |
| BaseAgent.Agent.constructor | src/agents/BaseAgent.ts:12-20 | a new agent under a fresh id has no tasks and no handlers and is not initialised |
| BaseAgent.Agent.Initialize | src/agents/BaseAgent.ts:25-35 | afterwards initialised; a second call keeps the handlers; a first call adds the subclass's handlers; tasks stay |
| BaseAgent.Agent.Shutdown | src/agents/BaseAgent.ts:40-50 | afterwards not initialised; an uninitialised agent keeps its handlers; an initialised one has none left; tasks stay |
| BaseAgent.Agent.CreateTask | src/agents/BaseAgent.ts:55-68 | a pending task at progress 0 owned by this agent is stored under its fresh id, adding one task, and nothing else changes |
| BaseAgent.Agent.UpdateTask | src/agents/BaseAgent.ts:73-94 | an unknown id gives null and changes nothing; otherwise that task becomes UpdatedTask of it, the ids stay the same and every other task stays |
| BaseAgent.Agent.CompleteTask | src/agents/BaseAgent.ts:55-94 | create, set running, then completed: CompletedTask is stored under the id and every other task stays |
| BaseAgent.Agent.FailTask | src/agents/BaseAgent.ts:55-94 | create, set running, then failed: FailedTask is stored under the id and every other task stays |
| BaseAgent.Agent.GetTask | src/agents/BaseAgent.ts:99-101 | some task exactly for a stored id, and then the stored one |
| BaseAgent.Agent.AllTasks | src/agents/BaseAgent.ts:106-108 | exactly the stored tasks |
| BaseAgent.Agent.OutgoingMessage | src/agents/BaseAgent.ts:113-121 | the message is from this agent to the target, with the given type and payload, a fresh id and the current time |
| BaseAgent.Agent.ReceiveMessage | src/agents/BaseAgent.ts:133-145 | no handler is reported exactly for an unregistered type, and a caught failure exactly when a registered handler throws |
| BaseAgent.CompletedTask | src/agents/BaseAgent.ts:55-94 | the task keeps its id, owner and type, and is completed at progress 100 with the result and no error |
| BaseAgent.FailedTask | src/agents/BaseAgent.ts:55-94 | the task keeps its id, owner and type, and is failed at progress 0 with the error and no result |
| BaseAgent.CreateThenUpdate | src/agents/BaseAgent.ts:55-101 | a created and then updated task keeps its id, owner and creation time, takes the new status and time, and getTask returns it |
| BaseAgent.AgentRegistry.constructor | src/agents/BaseAgent.ts:162 | the registry starts empty |
| BaseAgent.AgentRegistry.RegisterAgent | src/agents/BaseAgent.ts:167-170 | the id maps to the agent, replacing any earlier one; other ids stay |
| BaseAgent.AgentRegistry.UnregisterAgent | src/agents/BaseAgent.ts:175-181 | exactly that id is removed; an unknown id changes nothing |
| BaseAgent.AgentRegistry.GetAgent | src/agents/BaseAgent.ts:186-188 | some agent exactly for a registered id, and then the registered one |
| BaseAgent.AgentRegistry.RouteMessage | src/agents/BaseAgent.ts:200-208 | nothing is delivered exactly to an unknown target; a known target reports no handler exactly for a type it has none for, and a failed handler exactly when it has one and the handler throws |
| Chroma.NeighbourEnergyNonNeg | public/audioWorker.js:271-277 | a non-negative spectrum gives non-negative neighbour-bin energy |
| Chroma.AccumulateNeighbours | public/audioWorker.js:273-276 | the neighbour loop reads only indices in [1, len) and returns the weighted neighbour energy |
| Chroma.OctaveEnergy | public/audioWorker.js:268-277 | one octave contributes its weighted neighbour energy when its centre bin lies inside the spectrum, and nothing otherwise |
| Chroma.NoteEnergy | public/audioWorker.js:264-278 | the octave loop returns the note's weighted sum over the octaves lo..hi |
| Chroma.AddChroma | public/audioWorker.js:280 | entry n of the sum is the sum of entries n |
| Chroma.AddWindow | public/audioWorker.js:263-281 | one window adds its chroma to the accumulated one, entry by entry |
| Chroma.AccumulatedNonNeg | public/audioWorker.js:236-289 | non-negative spectra give a non-negative accumulated chroma |
| Chroma.WindowChromaNonNeg | public/audioWorker.js:263-281 | a window's chroma is non-negative for a non-negative spectrum and octave weights |
| Chroma.MaxNormalize | public/audioWorker.js:292-297 | with a positive maximum every entry is divided by it; otherwise the chroma is unchanged |
| Chroma.MaxNormalizedRange | public/audioWorker.js:292-297 | max-normalising a non-negative vector with a positive maximum puts every entry in [0, 1] and some entry at exactly 1 |
| Chroma.ZeroMaxUnchanged | public/audioWorker.js:292-293 | a non-negative vector whose maximum is not positive is all zeros |
| Clock.Trunc | src/components/EditSongModal.tsx:31 | truncation toward zero: the floor for non-negative values, minus the floor of the negation otherwise |
| Clock.JsRem60 | src/components/MusicPlayer.tsx:87 | for a non-negative time the remainder by 60 lies in [0, 60) |
| Clock.IntToString | src/components/EditSongModal.tsx:31 | a non-negative integer is written as its decimal digits |
| Clock.PadStart2 | src/components/MusicPlayer.tsx:88 | padding gives at least two characters and leaves a longer string alone |
| Clock.ClockParts | src/components/MusicPlayer.tsx:86-87 | the minutes are the whole seconds divided by 60 and the seconds their remainder |
| Clock.FormatClock | src/components/MusicPlayer.tsx:86-88 | the rendering: the floored minutes, a colon, and the floored JavaScript remainder modulo 60 padded to two characters; a negative time goes through the same floors, so a minus sign can appear in either field |
| Clock.FormatClockReadsBack | src/components/MusicPlayer.tsx:86-88 | a non-negative time renders as its whole minutes, a colon and two digits that read back as the remaining whole seconds |
| Clock.ZeroIsZeroClock | src/components/MusicPlayer.tsx:86-88 | a zero time renders as "0:00" |
| EditSongModal.TempoText | src/components/EditSongModal.tsx:31 | the tempo field is empty exactly for a song without a tempo |
| EditSongModal.Opened | src/components/EditSongModal.tsx:26-34 | the form opens with the song's truthy key or 'none', its truthy lyrics text or '', no lyrics file and not loading |
| EditSongModal.AlbumArtChosen | src/components/EditSongModal.tsx:38-44 | no file changes nothing; a file sets the album art to its object URL and nothing else |
| EditSongModal.LyricsFileChosen | src/components/EditSongModal.tsx:46-61 | no file changes nothing and reads nothing; a file is kept for upload and read as text exactly when its type is text/plain |
| EditSongModal.LyricsRead | src/components/EditSongModal.tsx:55-58 | the text read replaces the lyrics text and nothing else |
| EditSongModal.LyricsFileName | src/components/EditSongModal.tsx:77 | the storage name is longer than the file name and ends with it |
| EditSongModal.LyricsUrl | src/components/EditSongModal.tsx:75-82 | the uploaded URL when a file was chosen and the upload gave one, otherwise the song's own |
| EditSongModal.OrUndefined | src/components/EditSongModal.tsx:94-95 | undefined exactly for a missing or empty string, otherwise the string itself |
| EditSongModal.Submit | src/components/EditSongModal.tsx:63-97 | nothing is saved exactly when the title, album or duration is empty |
| EditSongModal.SubmitSaves | src/components/EditSongModal.tsx:84-97 | the saved song keeps id, artist, audio file and upload date, takes the form's title, album, duration and art, has no key exactly for 'none', no tempo for an empty field, lyrics text exactly when not empty, and the lyrics flag exactly when it keeps lyrics text or a lyrics URL |
| EditSongModal.SavedTempo | src/components/EditSongModal.tsx:93 | an empty tempo field, or one parseInt reads as NaN, is saved as no tempo; otherwise the number parseInt reads |
| EditSongModal.SavedTempoReads | src/components/EditSongModal.tsx:93 | a typed whole number is saved as that number; an empty field or one starting with a non-digit is saved as no tempo |
| EditSongModal.SaveUnchanged | src/components/EditSongModal.tsx:25-97 | opening a complete song and saving it unchanged gives it back up to the lyrics fields; only an empty key comes back as none |
| EditSongModal.SaveKeepsLyricsFlag | src/components/EditSongModal.tsx:84-94 | a song opened with lyrics text is saved with that text and flagged as having lyrics |
| EnhancedSongCard.TempoLabelCases | src/components/EnhancedSongCard.tsx:23-37 | a missing or zero tempo is exactly the 'Unknown' label and the grey colour; known tempos are Slow below 90, Medium below 120, Fast below 150 and Very Fast from 150 |
| EnhancedSongCard.ColourFollowsLabel | src/components/EnhancedSongCard.tsx:23-37 | the colour is the label's colour, and two tempos share a label exactly when they share a colour |
| EnhancedSongCard.ClassifiersMonotone | src/components/EnhancedSongCard.tsx:23-37 | among known tempos a faster one never gets a slower label or colour |
| ErrorWatcherAgent.MessageOrDefault | src/agents/ErrorWatcherAgent.ts:63 | the stored message is never empty and is the error's own message when that is not empty |
| ErrorWatcherAgent.NotFound | src/agents/ErrorWatcherAgent.ts:109 | the error for an unknown id is "Error with ID ", the id, then " not found" |
| ErrorWatcherAgent.ErrorWatcher.constructor | src/agents/ErrorWatcherAgent.ts:22-30 | a new watcher has no records, no listeners, no tasks and no handlers |
| ErrorWatcherAgent.ErrorWatcher.AllErrors | src/agents/ErrorWatcherAgent.ts:294-296 | exactly the stored records |
| ErrorWatcherAgent.ErrorWatcher.UnresolvedErrors | src/agents/ErrorWatcherAgent.ts:301-303 | exactly the stored records not yet resolved |
| ErrorWatcherAgent.ErrorWatcher.AddErrorListener | src/agents/ErrorWatcherAgent.ts:239-240 | the listener joins the set; the records stay |
| ErrorWatcherAgent.ErrorWatcher.RemoveErrorListener | src/agents/ErrorWatcherAgent.ts:243-245 | the listener leaves the set; the records stay |
| ErrorWatcherAgent.ErrorWatcher.ReportError | src/agents/ErrorWatcherAgent.ts:251-270 | an unresolved record with no retries, owned by this agent, is stored under the generated id, which is returned; every listener is notified |
| ErrorWatcherAgent.ErrorWatcher.ResolveError | src/agents/ErrorWatcherAgent.ts:275-289 | true exactly for a stored id; then only that record becomes resolved and every listener is notified; otherwise nothing changes and no one is notified |
| ErrorWatcherAgent.ErrorWatcher.HandleErrorReport | src/agents/ErrorWatcherAgent.ts:52-94 | with an `error` object, an unresolved record keyed by the task id, owned by the sender, with the message or 'Unknown error', is stored, the task completes with it, the listeners are notified and the sender is told the id; without one the TypeError fails the task, nothing is stored, nobody is notified and the sender gets `error:report:failed` |
| ErrorWatcherAgent.ErrorWatcher.HandleErrorResolve | src/agents/ErrorWatcherAgent.ts:100-138 | an unknown id fails the task with the not-found error and replies 'error:resolve:failed' without changes; a known id is resolved as by resolveError, the task completes and the reply is 'error:resolve:completed' |
| ErrorWatcherAgent.ErrorWatcher.HandleErrorRetry | src/agents/ErrorWatcherAgent.ts:143-189 | an unknown id fails without changing any record; a known record's retry count goes up by one, a retry request goes to the agent that caused it, and the task completes |
| ErrorWatcherAgent.ErrorWatcher.HandleGetAllErrors | src/agents/ErrorWatcherAgent.ts:194-210 | the task completes with every record and the sender receives them; the records stay |
| ErrorWatcherAgent.AddThenUnsubscribe | src/agents/ErrorWatcherAgent.ts:239-246 | adding a new listener and calling its unsubscribe restores the listener set and the records |
| ErrorWatcherAgent.ResolveTwice | src/agents/ErrorWatcherAgent.ts:275-289 | resolving twice gives the same answers and leaves the same records as resolving once |
| EssentiaProcessor.AnalysisData | src/hooks/audioAnalysis/essentiaProcessor.ts:70-72 | the analysed samples are the first min(length, 30 sr) samples |
| EssentiaProcessor.GuardAsWrittenAdmitsEndlessLoop | src/hooks/audioAnalysis/essentiaProcessor.ts:193-197 | as written, a bpm of 0.25 passes the guard, rounds to 0, and no number of doublings reaches 70; the corrected guard rejects it |
| EssentiaProcessor.GuardsAgreeFromOneHalf | src/hooks/audioAnalysis/essentiaProcessor.ts:193-211 | the corrected guard accepts exactly the values from 0.5 up, where it agrees with the guard as written |
| EssentiaProcessor.FoldEssentiaBpm | src/hooks/audioAnalysis/essentiaProcessor.ts:194-200 | for a rounded bpm of at least 1 the loops compute exactly Fold(bpm, 70, 180), which lies in [70, 180] on an octave of it, so the clamp never acts, and a bpm already in [70, 180] is returned unchanged |
| EssentiaProcessor.TempoSourceOf | src/hooks/audioAnalysis/essentiaProcessor.ts:183-225 | a throwing rhythm extractor gives the default; the rhythm estimate is used exactly when it passes the (corrected) guard; otherwise a Percival estimate passing the guard is used; anything else gives the default |
| EssentiaProcessor.AnalyzeTempoWithEssentia | src/hooks/audioAnalysis/essentiaProcessor.ts:183-225 | the first estimator that gives a usable bpm decides the tempo, which is exactly Fold(round(bpm), 70, 180) of that estimator; with neither the default 120 is returned |
| EssentiaProcessor.NoPositiveEstimateGives120 | src/hooks/audioAnalysis/essentiaProcessor.ts:193-220 | a missing or non-positive bpm from both estimators gives the default |
| EssentiaProcessor.Capitalized | src/hooks/audioAnalysis/essentiaProcessor.ts:241 | the length is kept, the first character is upper-cased and the rest is unchanged |
| EssentiaProcessor.ConvertedMatchesKeyName | src/hooks/audioAnalysis/essentiaProcessor.ts:239-243 | a lower-case note name with 'major' or another scale becomes the estimators' own "Note Major"/"Note Minor" name |
| EssentiaProcessor.AnalyzeKeyFromChroma | src/hooks/audioAnalysis/essentiaProcessor.ts:269-307 | the key is the name of the first strict maximum, from -1, of the 24 raw-template scores, and "C Major" when none beats -1 |
| EssentiaProcessor.LowScoresGiveCMajor | src/hooks/audioAnalysis/essentiaProcessor.ts:276-277 | when no score exceeds -1 the initial "C Major" stands |
| EssentiaProcessor.AnalyzeKeyWithEssentia | src/hooks/audioAnalysis/essentiaProcessor.ts:228-266 | the Key algorithm's converted name when it gives a key and scale, else the chroma key of an HPCP vector of at least 12 entries, else "C Major" |
| FileNames.StripExtensionPrefix | src/hooks/useAlbumUpload.ts:27 | the extension strip removes only a final '.' with at least one character after it, none of them '.' or '/'; what remains is a prefix of the name |
| FileNames.StripExtensionKeepsName | src/hooks/useUploadForm.ts:36 | a name the strip leaves whole has no extension: every '.' before its last character is followed by a '.' or '/' |
| FileNames.StripExtensionOfNamed | src/hooks/useAlbumUpload.ts:45 | stripping a base name followed by '.' and a plain extension gives back the base |
| FileNames.StripTrackNumberSuffix | src/hooks/useAlbumUpload.ts:29 | the track-number strip leaves a suffix: all of a name that does not start with a digit, otherwise a strictly shorter one that does not start with a separator |
| FileNames.StripTrackNumberOfTrack | src/hooks/useAlbumUpload.ts:45 | digits, separators and a title strip to the title |
| FileNames.CutAtDash | src/hooks/useAlbumUpload.ts:29 | a name without '-' is left unchanged and one with a '-' is shortened |
| FileNames.CutAtDashOfLine | src/hooks/useAlbumUpload.ts:29 | on one line the dash cut keeps a prefix with no '-' and no trailing white space |
| FileNames.CutAtFirstDash | src/hooks/useAlbumUpload.ts:29 | the cut keeps what precedes the first dash less the white space before it |
| FileNames.CutAtDashOfPair | src/hooks/useAlbumUpload.ts:29 | "first - rest" cuts to first |
| FileNames.AlbumNameFrom | src/hooks/useAlbumUpload.ts:26-31 | the album name taken from the first file is never empty |
| FileNames.AlbumNameOfTrack | src/hooks/useAlbumUpload.ts:27-30 | for a name "01 Artist - Song.mp3" the album name is what stands between the track number and the dash |
| FileNames.AlbumNameOfNumber | src/hooks/useAlbumUpload.ts:29-30 | a name that is only a track number and an extension falls back to "New Album" |
| FileNames.DefaultTitleOfTrack | src/hooks/useAlbumUpload.ts:44-45 | for a name "07 - Title.mp3" the default title is what stands between the track number and the extension |
| Folding.FoldUp | src/hooks/audioAnalysis/tempoAnalysis.ts:143 | the doubling loop computes exactly UpFold: the first power-of-two multiple of a positive bpm that reaches the lower bound |
| Folding.FoldDown | src/hooks/audioAnalysis/tempoAnalysis.ts:144 | the halving loop computes exactly DownFold: the first power-of-two fraction of the bpm that is at most the upper bound, positive for a positive bpm |
| Folding.UpFoldShape | src/utils/audioAnalysis/tempoDetection.ts:117 | the reference doubling UpFold(b, lo) is b * 2^k at or above lo, and one doubling fewer would be below lo |
| Folding.DownFoldShape | src/utils/audioAnalysis/tempoDetection.ts:118 | the reference halving DownFold(b, hi) is b / 2^k at or below hi, one halving fewer would be above hi, and it stays positive |
| Folding.FoldFacts | src/hooks/audioAnalysis/essentiaProcessor.ts:212-213 | for 0 < lo and 2 lo <= hi the reference Fold(b, lo, hi) lies in [lo, hi], is b moved by whole octaves, equals b when b is already in range, and is the first octave the loops reach |
| Folding.FoldPinsOctave | public/audioWorker.js:207-208 | concrete folds: 40 folds to 80 in [70, 180], 320 to 160 in [80, 160] and 300 to 150 in [70, 180] |
| Folding.FoldedWithin | src/utils/audioAnalysis/tempoDetection.ts:117-118 | doubling up to the lower bound and then halving down to the upper one lands inside the range when the range spans an octave |
| Folding.OctaveWitness | public/audioWorker.js:207-208 | the folded value is the bpm moved by a whole number of octaves |
| Folding.FoldUpIdle | src/hooks/audioAnalysis/simpleAudioProcessor.ts:150 | a bpm already at or above the lower bound is left alone by the doubling loop |
| Folding.FoldDownIdle | src/hooks/audioAnalysis/simpleAudioProcessor.ts:151 | a positive bpm already at or below the upper bound is left alone by the halving loop |
| Folding.Folded | src/hooks/audioAnalysis/essentiaProcessor.ts:197-198 | the two loops together land in the range on an octave of the bpm and leave a bpm already in the range unchanged |
| JsText.ParseIntOfDigits | src/components/EditSongModal.tsx:93 | parseInt of a non-empty string of decimal digits is the value of those digits |
| JsText.ParseIntOfNatToString | src/hooks/useUploadForm.ts:94 | parseInt reads back the decimal string of any natural number |
| JsText.ParseIntOfNonNumeric | src/components/AddSongToSetlistModal.tsx:48 | parseInt of a string starting with a character that is no digit, sign or white space is NaN |
| KeyAnalysis.MiddleBounds | src/hooks/audioAnalysis/keyAnalysis.ts:10-11 | the slice bounds floor(0.15 n) and floor(0.85 n) are ordered and inside the samples |
| KeyAnalysis.MiddleSection | src/hooks/audioAnalysis/keyAnalysis.ts:12 | the middle section has exactly the samples between the two bounds |
| KeyAnalysis.WindowsInsideSlice | src/hooks/audioAnalysis/keyAnalysis.ts:18-24 | every window that runs is a full 8192 samples of the slice, with one hop left unused after the last |
| KeyAnalysis.NoWindowWhenShort | src/hooks/audioAnalysis/keyAnalysis.ts:20-22 | no window runs exactly when the slice is shorter than 10240 samples |
| KeyAnalysis.OctaveWeight | src/hooks/audioAnalysis/keyAnalysis.ts:61 | octaves up to 3 weigh 2, octave 4 weighs 1.5 and higher octaves 1 |
| KeyAnalysis.OctaveWeightDecreasing | src/hooks/audioAnalysis/keyAnalysis.ts:60-61 | a lower octave never weighs less than a higher one |
| KeyAnalysis.AccumulateBassWindows | src/hooks/audioAnalysis/keyAnalysis.ts:17-68 | the window loop leaves the chromagram equal to the sum over all windows of each note's octave- and neighbour-weighted energy over octaves 2..6, skipping out-of-range centre bins |
| KeyAnalysis.L2Normalize | src/hooks/audioAnalysis/keyAnalysis.ts:97-100 | the chroma is divided by its L2 norm when that norm is positive and otherwise left alone |
| KeyAnalysis.L2NormalizedUnit | src/hooks/audioAnalysis/keyAnalysis.ts:97-100 | a non-zero chroma has unit sum of squares after L2 normalisation; a zero chroma comes back unchanged |
| KeyAnalysis.TriadOf | src/hooks/audioAnalysis/keyAnalysis.ts:139-140 | the third lies 3 semitones above the root for a minor key and 4 for a major one, and the fifth 7 |
| KeyAnalysis.AnalyzeKeyFromEnhancedChromagram | src/hooks/audioAnalysis/keyAnalysis.ts:83-147 | the key returned names the first candidate with the greatest score of the L2-normalised chroma against the normalised templates; the harmonic strength is read from that key's triad |
| KeyAnalysis.TriadFromName | src/hooks/audioAnalysis/keyAnalysis.ts:135-140 | reading the root and mode back from the key's name recovers that key's triad |
| KeyAnalysis.DetectKeyFromBassline | src/hooks/audioAnalysis/keyAnalysis.ts:5-81 | the key is the name of the first best-scoring candidate for the max-normalised, accumulated chroma of the middle section |
| KeyAnalysis.NormalizationKeepsKey | src/hooks/audioAnalysis/keyAnalysis.ts:71-100 | neither normalisation changes the winner: it is the first best candidate of the raw accumulated chroma |
| KeyAnalysis.ShortInputGivesCMajor | src/hooks/audioAnalysis/keyAnalysis.ts:20-22 | a slice shorter than 10240 samples is reported as "C Major" |
| KeyAnalysis.BassChromaRange | src/hooks/audioAnalysis/keyAnalysis.ts:71-76 | for non-negative spectra the chromagram is non-negative and, once max-normalised, lies in [0, 1] with some entry 1, or is all zero |
| KeyDetection.WindowsAreFull | src/utils/audioAnalysis/keyDetection.ts:10-20 | every window the loop runs lies wholly inside the first 60 seconds, so its slice is a full 16384 samples |
| KeyDetection.AccumulateWindows | src/utils/audioAnalysis/keyDetection.ts:14-62 | the loop counts the windows it runs and leaves the chromagram equal to the sum over them of each note's neighbour-weighted energy over octaves 1..7 |
| KeyDetection.Normalize | src/utils/audioAnalysis/keyDetection.ts:64-72 | the chroma is divided by its maximum only when a window ran and that maximum is positive |
| KeyDetection.ChromaRange | src/utils/audioAnalysis/keyDetection.ts:64-72 | for non-negative spectra the normalised chroma lies in [0, 1] with some entry 1 when a window ran and energy was found, and is the accumulation unchanged otherwise |
| KeyDetection.NoWindowGivesCMajor | src/utils/audioAnalysis/keyDetection.ts:94-95 | with no window the chroma is silent and the key is "C Major" |
| KeyDetection.DetectKey | src/utils/audioAnalysis/keyDetection.ts:3-77 | the key is the name of the first candidate with the greatest score of the normalised chromagram against the normalised templates |
| KeyProfiles.KeyNameIsKeyName | src/utils/audioAnalysis/keyDetection.ts:108-120 | every candidate's name is a note name followed by " Major" or " Minor" |
| KeyProfiles.KeyNameInjective | src/utils/audioAnalysis/keyDetection.ts:81-120 | distinct keys have distinct names |
| KeyProfiles.RootFromName | src/hooks/audioAnalysis/keyAnalysis.ts:135 | the index of a key name's first word among the note names is the key's root |
| KeyProfiles.MinorFromName | src/hooks/audioAnalysis/keyAnalysis.ts:136 | a key name contains "Minor" exactly when the key is minor |
| KeyProfiles.Candidate | src/utils/audioAnalysis/keyDetection.ts:98-122 | candidates are tried root by root, major before minor, and each is a valid key |
| KeyProfiles.CandidateScores | src/utils/audioAnalysis/keyDetection.ts:98-122 | there are 24 scores, the c-th being candidate c's rotated correlation |
| KeyProfiles.KeyOf | src/utils/audioAnalysis/keyDetection.ts:94 | the reported key is the winner's, or C major when nothing won |
| KeyProfiles.RotatedScore | src/utils/audioAnalysis/keyDetection.ts:100-104 | the inner loop computes the sum of chroma[(i + root) % 12] * profile[i] |
| KeyProfiles.KeyArgmax | src/utils/audioAnalysis/keyDetection.ts:94-122 | the 24-candidate loop returns the first candidate whose score strictly beats the running best from the initial bound, and that candidate's key |
| KeyProfiles.ScanStateStep | src/utils/audioAnalysis/keyDetection.ts:106-109 | a candidate replaces the best only when its score is strictly greater, which keeps the scan's invariant |
| KeyProfiles.ZeroChromaScoresZero | src/utils/audioAnalysis/keyDetection.ts:100-104 | an all-zero chroma scores 0 against any profile |
| KeyProfiles.ZeroChromaGivesCMajor | src/utils/audioAnalysis/keyDetection.ts:94-95 | with an all-zero chroma the scan reports "C Major", whether it starts from -Infinity or from a bound of 0 or more |
| KeyProfiles.PartialScoreScaled | src/utils/audioAnalysis/keyDetection.ts:91-92 | dividing a profile by d divides every score by d |
| KeyProfiles.NormalizedMajor | src/utils/audioAnalysis/keyDetection.ts:89-91 | the major template divided entry by entry by its positive Euclidean norm |
| KeyProfiles.NormalizedMinor | src/utils/audioAnalysis/keyDetection.ts:90-92 | the minor template divided entry by entry by its positive Euclidean norm |
| KeyProfiles.ProfileNormsPositive | src/utils/audioAnalysis/keyDetection.ts:89-90 | both profiles have a positive norm, so the division by it is defined |
| KeyProfiles.DivideTemplate | src/utils/audioAnalysis/keyDetection.ts:91-92 | dividing each entry in turn gives the template scaled by 1 / norm |
| KeyProfiles.ScanNormalized | src/utils/audioAnalysis/keyDetection.ts:79-126 | normalising the templates and scanning from -Infinity always finds a winner, and the result is its name |
| KeyProfiles.ScanRaw | src/hooks/audioAnalysis/essentiaProcessor.ts:269-307 | the unnormalised scan from a given bound returns the name of the first strict maximum, or "C Major" when none beats the bound |
| KeyProfiles.PartialScoreChromaScaled | src/hooks/audioAnalysis/keyAnalysis.ts:97-100 | dividing the chroma by d divides every score by d |
| KeyProfiles.ScaledChromaSameWinner | src/utils/audioAnalysis/keyDetection.ts:64-72 | dividing the chroma by a positive number never changes which key the -Infinity scan reports |
| LagScan.CountFrom | src/hooks/audioAnalysis/tempoAnalysis.ts:126-128 | the sample loop counts at least one product exactly when its start lies below its end |
| LagScan.CountFromBound | src/hooks/audioAnalysis/tempoAnalysis.ts:126-127 | every sample index the loop visits stays below its end, so data[i + lag] is in range |
| LagScan.MeanProductLoop | src/hooks/audioAnalysis/tempoAnalysis.ts:123-132 | the sample loop followed by the division computes the mean of the products data[i] * data[i + lag] over the strided indices |
| LagScan.LagsFromBounds | src/hooks/audioAnalysis/tempoAnalysis.ts:122 | every lag tried lies between minLag and the limit |
| LagScan.LagsFromArithmetic | src/hooks/audioAnalysis/tempoAnalysis.ts:122 | the k-th lag tried is minLag + 8 k |
| LagScan.LagsFromComplete | src/hooks/audioAnalysis/tempoAnalysis.ts:122 | every lag of that progression below the limit is tried |
| LagScan.BestLag | src/hooks/audioAnalysis/tempoAnalysis.ts:119-138 | the lag loop returns the lag of the first strict maximum of the mean products from the initial best, or minLag when none beats it; the result is minLag or below both bounds |
| LagScan.ScanningDone | src/hooks/audioAnalysis/tempoAnalysis.ts:122-138 | once the loop leaves, every lag has been scored and the kept lag is the first strict maximum |
| Lists.Filter | src/components/MainContent.tsx:41 | Array.filter keeps exactly the elements the callback accepts, in their order |
| Lists.FilterAll | src/components/MainContent.tsx:41 | a callback that accepts everything leaves the list unchanged |
| LyricsAgent.AddRecord | src/agents/LyricsAgent.ts:82-86 | the add record sets has_lyrics exactly when the text or the new file URL is truthy, always writes the file URL (null without a file) and writes the text when one is given |
| LyricsAgent.AddKeepsConsistent | src/agents/LyricsAgent.ts:82-86 | adding a text leaves a row whose flag agrees with its text and file columns |
| LyricsAgent.UpdateHasLyricsAsWritten | src/agents/LyricsAgent.ts:170 | the flag as written is set exactly when the given text is truthy or the file URL the row will hold (the new one if truthy, else the stored one) is |
| LyricsAgent.UpdateAsWrittenClearsFlagOfStoredText | src/agents/LyricsAgent.ts:169-175 | as written, an update with neither text nor file keeps a stored text but clears has_lyrics on it, so a consistent row becomes inconsistent |
| LyricsAgent.UpdateHasLyrics | src/agents/LyricsAgent.ts:169-171 | the corrected flag also counts the stored text when no text is given, and otherwise agrees with the flag as written |
| LyricsAgent.BuildUpdateRecord | src/agents/LyricsAgent.ts:169-179 | the update record carries the has_lyrics flag as written (the intended one when `corrected`), writes lyrics_text only when a text is given and lyrics_file_url only when a new URL is truthy |
| LyricsAgent.UpdateKeepsConsistent | src/agents/LyricsAgent.ts:169-186 | applying the corrected update record keeps a consistent row consistent |
| LyricsAgent.Lyrics.constructor | src/agents/LyricsAgent.ts:9-14 | a new lyrics agent has no tasks, no handlers and an empty song table |
| LyricsAgent.Lyrics.HandleAddLyrics | src/agents/LyricsAgent.ts:35-120 | with a file an upload:lyrics request goes to the upload agent first; a failed upload or a song not in the table fails the task and sends only lyrics:add:failed; otherwise the add record is applied, the task completes with the new row, lyrics:add:completed is sent and song:updated goes to the realtime agent with the same payload |
| LyricsAgent.Lyrics.AddLyricsRow | src/agents/LyricsAgent.ts:43-93 | the upload and update succeed exactly when the upload did and the song exists, and then only that song's row changes |
| LyricsAgent.Lyrics.AddLyrics | src/agents/LyricsAgent.ts:268-326 | as the add handler without the upload request, under the public task type: the new row is returned and song:updated is sent exactly on success; on an error nothing is sent and the task fails |
| LyricsAgent.Lyrics.HandleUpdateLyrics | src/agents/LyricsAgent.ts:125-217 | on success only the song's row changes: it keeps its stored text and URL unless new ones are given and gets the has_lyrics flag as written (the intended one when `corrected`), lyrics:update:completed is sent and song:updated goes to the realtime agent; with the intended flag every row stays consistent; on failure nothing changes, the task fails and no song:updated is sent |
| LyricsAgent.Lyrics.HandleGetLyrics | src/agents/LyricsAgent.ts:222-263 | the stored columns are sent for a song in the table and a failure otherwise; no row changes |
| LyricsAgent.Lyrics.GetLyrics | src/agents/LyricsAgent.ts:331-358 | the stored columns are returned exactly for a song in the table, with a completed task, and a failed task otherwise |
| MeydaProcessor.Onsets | src/hooks/audioAnalysis/meydaProcessor.ts:116-142 | the onset envelope has one value per frame |
| MeydaProcessor.LastUsable | src/hooks/audioAnalysis/meydaProcessor.ts:130-139 | the frame found is the latest one before n whose centroid and RMS are both truthy; none is found exactly when no earlier frame is usable |
| MeydaProcessor.OnsetsCharacterized | src/hooks/audioAnalysis/meydaProcessor.ts:118-142 | each onset is |centroid - previous centroid| + 1000 |rms - previous rms| against the latest usable earlier frame (or 0), and 0 for an unusable frame |
| MeydaProcessor.OnsetsNonNeg | src/hooks/audioAnalysis/meydaProcessor.ts:132-141 | every onset value is non-negative |
| MeydaProcessor.FramesOf | src/hooks/audioAnalysis/meydaProcessor.ts:122-128 | the frames are the extracted features, in order |
| MeydaProcessor.OnsetStrength | src/hooks/audioAnalysis/meydaProcessor.ts:115-148 | the frame loop builds the onset envelope of the extracted frames, and gives none exactly when some extraction threw |
| MeydaProcessor.AdjustTempo | src/hooks/audioAnalysis/meydaProcessor.ts:193-197 | the if-chain and clamp keep 80..160, double 40..79, quadruple 18..39, halve 161..360, and clamp the rest to 70 or 180; the result always lies in [70, 180] |
| MeydaProcessor.MedianBpmRange | src/hooks/audioAnalysis/meydaProcessor.ts:177-190 | a median interval in (0.3, 2.0) gives a rounded tempo in [30, 200] |
| MeydaProcessor.ChainResult | src/hooks/audioAnalysis/meydaProcessor.ts:193-197 | for a rounded tempo in [30, 200] the chain lands in [80, 160], and the result is fractional exactly when an odd tempo above 160 was halved |
| MeydaProcessor.MedianTempo | src/hooks/audioAnalysis/meydaProcessor.ts:188-197 | the sorted intervals' median lies in (0.3, 2.0) and its tempo is adjusted as the chain prescribes |
| MeydaProcessor.TempoFromOnsets | src/hooks/audioAnalysis/meydaProcessor.ts:153-197 | fewer than 8 peaks or fewer than 3 usable intervals among the first 19 gaps give 120; otherwise the tempo is the adjusted median tempo |
| MeydaProcessor.DetectTempoWithMeyda | src/hooks/audioAnalysis/meydaProcessor.ts:105-204 | over at most 200 frames: a throwing extraction gives 120, otherwise the tempo follows the onset envelope's outcome; it always lies in [70, 180] |
| MeydaProcessor.Present | src/hooks/audioAnalysis/meydaProcessor.ts:225-233 | at most one chroma is kept per frame |
| MeydaProcessor.CollectChroma | src/hooks/audioAnalysis/meydaProcessor.ts:217-239 | the frame loop keeps exactly the chroma vectors that extracted as arrays, in frame order |
| MeydaProcessor.AverageChroma | src/hooks/audioAnalysis/meydaProcessor.ts:249-254 | the nested loops compute the column means of the first 12 entries of the frames |
| MeydaProcessor.DetectKeyWithMeyda | src/hooks/audioAnalysis/meydaProcessor.ts:207-309 | over at most 150 frames: no usable frame gives "C Major"; otherwise the key names the first candidate with the greatest raw-template score of the max-normalised average chroma |
| MeydaProcessor.NormalizationKeepsKey | src/hooks/audioAnalysis/meydaProcessor.ts:257-262 | the max-normalisation never changes which key wins |
| MetadataAgent.First | src/agents/MetadataAgent.ts:291-292 | the first element is taken exactly when the list exists and is not empty |
| MetadataAgent.DurationString | src/agents/MetadataAgent.ts:278-283 | a missing or zero duration reads "0:00" and any other duration is written as minutes and two-digit seconds |
| MetadataAgent.FormatMetadata | src/agents/MetadataAgent.ts:274-294 | each missing text tag becomes its "Unknown ..." default, the duration is rendered, the year is kept and genre and picture are the first elements of their lists |
| MetadataAgent.DefaultMetadata | src/agents/MetadataAgent.ts:299-306 | the defaults are "Unknown Title", "Unknown Artist", "Unknown Album" and "0:00", with no year, genre or picture |
| MetadataAgent.NoTagsGiveDefault | src/agents/MetadataAgent.ts:274-306 | a file without tags formats exactly as the default metadata |
| MetadataAgent.FormattedFieldsNonEmpty | src/agents/MetadataAgent.ts:285-289 | the formatted title, artist, album and duration are never empty |
| MetadataAgent.ExtractedMetadata | src/agents/MetadataAgent.ts:254-269 | a failed fetch or parse gives the default metadata, a successful one the formatted tags |
| MetadataAgent.BatchUpdateAsWritten | src/agents/MetadataAgent.ts:186-189 | as written, the stored row's title, artist, album and year are exactly the extracted metadata's, so the song's own fields are never reached |
| MetadataAgent.BatchAsWrittenDropsExistingTitle | src/agents/MetadataAgent.ts:186 | as written, a song whose file has no title tag, or cannot be read, is renamed "Unknown Title" although it has a stored title |
| MetadataAgent.BatchUpdate | src/agents/MetadataAgent.ts:185-191 | the corrected update takes each field from the tags, then from the stored song, then from the default, and keeps the song's id and the tag year |
| MetadataAgent.BatchUpdatePrefersTagsThenStored | src/agents/MetadataAgent.ts:185-191 | the corrected update keeps a stored field the tags lack, agrees with the update as written on every field the tags have, and defaults only when both are missing |
| MetadataAgent.BatchResults | src/agents/MetadataAgent.ts:171-201 | at most one row is stored per song |
| MetadataAgent.BatchResultsFromPlayableSongs | src/agents/MetadataAgent.ts:172-201 | every stored row belongs to a song with an audio file whose update went through |
| MetadataAgent.BatchExtract | src/agents/MetadataAgent.ts:167-215 | the loop stores, in order, the rows as written of the songs with an audio file whose update succeeds, and its progress is the stored share of 100, within [0, 100] |
| MetadataAgent.BatchResultsStep | src/agents/MetadataAgent.ts:171-201 | one more song either adds its row or is skipped |
| MetadataAgent.BatchResultsCorrectedAgree | src/agents/MetadataAgent.ts:171-201 | the corrected extraction stores rows for the same songs in the same order as the code as written, with the same ids and years |
| MetadataAgent.ProgressIsShare | src/agents/MetadataAgent.ts:169-213 | k increments of 100 / n make up k / n of 100 |
| MetadataAgent.ProgressAtMostHundred | src/agents/MetadataAgent.ts:169-214 | at most n increments of 100 / n stay within 0 and 100 |
| MainContent.Filtered | src/components/MainContent.tsx:41-67 | the filtered list is no longer than the song list |
| MainContent.FilteredExact | src/components/MainContent.tsx:41-67 | the filtered list holds exactly the songs that pass both the key filter and the tempo filter |
| MainContent.FilteredAll | src/components/MainContent.tsx:43-48 | with both filters at 'all' every song is shown, in its order |
| MainContent.KeyFilterKeepsExtensions | src/components/MainContent.tsx:43 | the key filter matches substrings, so a filter keeps every key that starts with it ('C' keeps 'C#') |
| MainContent.KeyFilterDropsMissingKey | src/components/MainContent.tsx:43-45 | a key filter other than 'all' drops songs with a missing or empty key |
| MainContent.TempoFilterPassesUnknown | src/components/MainContent.tsx:48 | songs without a tempo, or with tempo 0, pass every tempo filter |
| MainContent.TempoRanges | src/components/MainContent.tsx:50-63 | for a known tempo the four ranges are inclusive at both ends, so 90, 120 and 150 each fall in two ranges |
| MainContent.ThreeWay | src/components/MainContent.tsx:97-101 | the comparator returns -1, 0 or 1 |
| MainContent.SongCompare | src/components/MainContent.tsx:70-102 | the comparator for any field and direction returns -1, 0 or 1 |
| MainContent.FilteredAndSorted | src/components/MainContent.tsx:40-105 | the rendered list is a permutation of the filtered list |
| MainContent.ValueLessStrictTotal | src/components/MainContent.tsx:98 | `<` on the compared values is irreflexive, transitive and orders any two different values |
| MainContent.SongOrder | src/components/MainContent.tsx:70-102 | song a may precede b when the sort callback on (a, b) is not positive |
| MainContent.SongOrderIsTotal | src/components/MainContent.tsx:70-102 | for every sort field and direction the comparator induces a total, transitive order |
| MainContent.FilteredAndSortedSorted | src/components/MainContent.tsx:40-105 | the rendered list is sorted by the comparator and holds exactly the songs both filters accept |
| MainContent.DescendingReversesAscending | src/components/MainContent.tsx:97-101 | 'desc' returns the negation of 'asc', and swapping the two songs negates the comparison |
| Metronome.IntervalMs | src/components/Metronome.tsx:52 | the interval is positive and interval * tempo is 60000 |
| Metronome.ClickGain | src/components/Metronome.tsx:42 | the click gain is volume / 1000, within [0, 0.1] for a slider value in [0, 100] |
| Metronome.TempoDescription | src/components/Metronome.tsx:95-102 | each tempo band below 60, 90, 120, 150 and 180 gets its description, and 180 and above is "Extreme" |
| Metronome.TempoDescriptionMonotone | src/components/Metronome.tsx:95-102 | a faster tempo never gets a slower description |
| Metronome.OneDotLit | src/components/Metronome.tsx:85-93 | while running exactly the current beat's dot is lit and only the first dot is accented; stopped, every dot is off |
| Metronome.Metronome.constructor | src/components/Metronome.tsx:14-17 | the metronome starts on beat 0 at the given tempo, volume 50 and no interval |
| Metronome.Metronome.SetTempo | src/components/Metronome.tsx:76-83 | the tempo is set, beat and volume are kept, and a tempo that is not positive stops the interval |
| Metronome.Metronome.Restart | src/components/Metronome.tsx:50-74 | an interval of 60000 / tempo runs when active with a positive tempo, and its clicks read the beat of the render that started it; otherwise no interval runs and the beat returns to 0 |
| Metronome.Metronome.Tick | src/components/Metronome.tsx:38-59 | as written, a tick advances the beat modulo 4 but plays the frequency of the beat the interval started on; the beat always stays a valid index |
| Metronome.Metronome.IntendedTick | src/components/Metronome.tsx:54-59 | corrected: a tick advances the beat modulo 4 and plays the frequency of the beat it moves to |
| Metronome.RunTicks | src/components/Metronome.tsx:38-59 | n ticks as written play n copies of the starting beat's frequency and move the beat on by n modulo 4 |
| Metronome.RunIntendedTicks | src/components/Metronome.tsx:54-59 | n corrected ticks play the frequencies of beats start + 1, start + 2, ... modulo 4 |
| Metronome.ClicksAsWritten | src/components/Metronome.tsx:25-59 | as written, every click of a running interval has the pitch of the beat the interval started on |
| Metronome.Clicks | src/components/Metronome.tsx:38-57 | corrected: the k-th click has the pitch of beat (start + k + 1) mod 4 |
| Metronome.ClicksAsWrittenNeverVary | src/components/Metronome.tsx:38-59 | started on beat 0, the four clicks as written are all accents, while the intended bar is 800, 900, 800, 1200 |
| Metronome.OneAccentPerBar | src/components/Metronome.tsx:38-56 | any four consecutive intended clicks contain exactly the one accent of the return to beat 0 |
| MusicPlayer.TempoOr120 | src/components/MusicPlayer.tsx:20 | a truthy song tempo is used, otherwise 120 |
| MusicPlayer.Initial | src/components/MusicPlayer.tsx:17-23 | a mounted player starts at progress 0, volume 75, metronome off at the song's tempo or 120, time 0 and duration 0, not minimised |
| MusicPlayer.MetronomeFollowsSong | src/components/MusicPlayer.tsx:26-30 | after the tempo effect the metronome runs at a song's truthy tempo and otherwise keeps its tempo (the previous song's); nothing else changes |
| MusicPlayer.MountedTempo | src/components/MusicPlayer.tsx:20-30 | on mount the effect agrees with the initial state |
| MusicPlayer.ElementVolume | src/components/MusicPlayer.tsx:54 | the element volume is the slider value / 100, within [0, 1] for a value in [0, 100] |
| MusicPlayer.TimeUpdate | src/components/MusicPlayer.tsx:59-68 | the current time is always shown; the progress moves only for a positive duration, to the share current / total of 100, within [0, 100] for a time inside the song |
| MusicPlayer.LoadedMetadata | src/components/MusicPlayer.tsx:70-74 | only the duration changes, to the element's, NaN included |
| MusicPlayer.SeekTime | src/components/MusicPlayer.tsx:78 | the seek time is progress / 100 of the duration, within the song for a slider value in [0, 100] |
| MusicPlayer.ProgressChange | src/components/MusicPlayer.tsx:76-82 | with a positive duration the element seeks to the slider's time and the slider takes the value; otherwise nothing happens |
| MusicPlayer.SeekThenUpdateKeepsProgress | src/components/MusicPlayer.tsx:59-82 | the time update a seek causes leaves the slider where it was put |
| MusicPlayer.UpdateThenSeekKeepsTime | src/components/MusicPlayer.tsx:59-82 | putting the slider where a time update left it seeks back to that time |
| MusicPlayer.FormatTimeReads | src/components/MusicPlayer.tsx:84-89 | NaN and 0 both read "0:00"; a non-negative time reads as its whole minutes, a colon and two digits whose value is its remaining whole seconds |
| Numeric.Round | src/hooks/audioAnalysis/meydaProcessor.ts:190 | Math.round gives the integer nearest its argument, a half rounding up |
| Numeric.Floor | src/hooks/audioAnalysis/tempoAnalysis.ts:22 | Math.floor gives the greatest integer not above its argument |
| Numeric.Clamp | src/hooks/audioAnalysis/meydaProcessor.ts:197 | Math.max(lo, Math.min(hi, x)) lies in [lo, hi], is x inside the range and the nearer bound outside it |
| Numeric.ClampInt | src/hooks/audioAnalysis/essentiaProcessor.ts:200 | the same clamp on integers |
| Numeric.MaxOf | src/hooks/audioAnalysis/meydaProcessor.ts:257 | Math.max(...s) is an element of s and no element exceeds it |
| Ordering.SortBy | src/components/MainContent.tsx:70 | the sort returns a list of the same length holding the same elements with the same multiplicities |
| Ordering.SortBySorted | src/components/MainContent.tsx:70-102 | with a comparator that is total and transitive on the list, the sorted list is in order |
| Ordering.SortBySameElements | src/components/MainContent.tsx:70 | the sorted list holds exactly the list's elements |
| Ordering.SortedSortsToItself | src/components/MainContent.tsx:70 | a list already in order comes back unchanged |
| Peaks.PickPeaks | public/audioWorker.js:115-130 | the peak loop returns increasing frames inside the scanned range, each above the threshold and above its neighbours at distance up to the radius, consecutive ones at least the minimum distance apart, with every other peak skipped only for falling within that distance of an earlier accepted one |
| Peaks.PickStep | public/audioWorker.js:119-129 | one iteration of the peak loop accepts or skips frame i and keeps the loop facts |
| Peaks.NoSpacingKeepsAll | src/hooks/audioAnalysis/meydaProcessor.ts:153-164 | without a spacing rule every peak of the scanned range is kept |
| Peaks.Gaps | public/audioWorker.js:141-142 | the differences of consecutive points, one fewer than min(points, limit) |
| Peaks.Within | public/audioWorker.js:143-145 | the elements strictly between the two bounds, each of them and only them |
| Peaks.CollectIntervals | public/audioWorker.js:140-146 | the interval loop keeps, in order, exactly the gaps among the first limit points that lie strictly between the bounds |
| Peaks.TimesIncreasing | src/hooks/audioAnalysis/meydaProcessor.ts:176 | frame indices converted to seconds keep their strict order |
| PlaylistCreator.CompatibleKeys | src/components/PlaylistCreator.tsx:22-35 | a key in the circle-of-fifths table gets its row, any other key only itself |
| PlaylistCreator.CompatibilityRows | src/components/PlaylistCreator.tsx:23-32 | the table has exactly the eight roots, six keys a row, each row starting with its own root |
| PlaylistCreator.CompatibleWithItself | src/components/PlaylistCreator.tsx:22-35 | every key is among its own compatible keys |
| PlaylistCreator.FullNamesAreNotRoots | src/components/PlaylistCreator.tsx:34 | full key names such as "C Major", which the analysers store, are not table roots and match only themselves |
| PlaylistCreator.SelectedFor | src/components/PlaylistCreator.tsx:40-42 | the selection has no more ids than the library has songs |
| PlaylistCreator.SelectedForExact | src/components/PlaylistCreator.tsx:40-42 | an id is selected exactly when a library song with that id has a truthy key containing one of the compatible keys |
| PlaylistCreator.SelectsKeysIncludingIt | src/components/PlaylistCreator.tsx:41 | matching is by substring: a song whose key includes the chosen key is selected, so 'C' selects a 'C#m' song |
| PlaylistCreator.AvailableKeys | src/components/PlaylistCreator.tsx:56 | the keys offered are distinct and are exactly the songs' non-empty keys |
| PlaylistCreator.KeySelected | src/components/PlaylistCreator.tsx:37-44 | choosing a key remembers it and selects exactly the fitting songs, leaving the dialog and the name as they were |
| PlaylistCreator.CreatePlaylist | src/components/PlaylistCreator.tsx:46-54 | handleCreatePlaylist: the onCreatePlaylist call it makes, if any, and the dialog state after it |
| PlaylistCreator.CreatePlaylistCases | src/components/PlaylistCreator.tsx:46-54 | a playlist is requested exactly when it has a name and a song, with that name and those songs, and the dialog then closes and clears; otherwise nothing changes |
| PlaylistCreator.CreateTwiceCreatesOnce | src/components/PlaylistCreator.tsx:46-54 | creating again right after a creation requests nothing |
| QueueManager.Queue.constructor | src/hooks/audioAnalysis/queueManager.ts:7-9 | the hook starts with an empty queue, not processing, at progress 0 of 0 |
| QueueManager.Queue.AddToQueue | src/hooks/audioAnalysis/queueManager.ts:11-13 | the new songs follow the queued ones, both in their order, and nothing else changes |
| QueueManager.Queue.ClearQueue | src/hooks/audioAnalysis/queueManager.ts:15-20 | the queue empties and processing stops, while the progress stays until the timer resets it |
| QueueManager.Queue.ResetProgress | src/hooks/audioAnalysis/queueManager.ts:19 | the delayed reset puts the progress back to 0 of 0 and changes nothing else |
| QueueManager.Queue.UpdateProgress | src/hooks/audioAnalysis/queueManager.ts:22-24 | the progress becomes exactly the given pair and nothing else changes |
| QueueManager.Queue.StartProcessing | src/hooks/audioAnalysis/queueManager.ts:26-28 | the processing flag goes up and nothing else changes |
| RealtimeAgent.SubscriptionId | src/agents/RealtimeAgent.ts:60 | the subscription id joins channel, event and sender with two colons |
| RealtimeAgent.SetlistEventsDistinct | src/agents/RealtimeAgent.ts:318-325 | the six setlist events are six different names |
| RealtimeAgent.Realtime.constructor | src/agents/RealtimeAgent.ts:9-17 | a new agent has its name and description, no subscriptions and no listeners |
| RealtimeAgent.Realtime.ListenersOf | src/agents/RealtimeAgent.ts:248 | an event without an entry has no listeners |
| RealtimeAgent.Realtime.AddEventListener | src/agents/RealtimeAgent.ts:263-269 | the event's listener set gains the listener, created if absent, a second add storing nothing new, and no other event changes |
| RealtimeAgent.Realtime.RemoveEventListener | src/agents/RealtimeAgent.ts:271-279 | unsubscribing drops the listener and, once the set is empty, the event's entry, and no other event changes |
| RealtimeAgent.Realtime.NotifyListeners | src/agents/RealtimeAgent.ts:247-258 | every listener of the event is called once, those that throw being logged without stopping the rest |
| RealtimeAgent.Realtime.HandleSubscribe | src/agents/RealtimeAgent.ts:52-104 | an existing id adds no second subscription, a new one is stored under channel:event:sender; the task completes and the sender is sent the id |
| RealtimeAgent.Realtime.HandleUnsubscribe | src/agents/RealtimeAgent.ts:128-162 | the reply says whether the id existed, and exactly that entry is gone afterwards |
| RealtimeAgent.Realtime.HandleBroadcast | src/agents/RealtimeAgent.ts:177-242 | the song and setlist handlers call exactly the listeners of the event named as the message |
| RealtimeAgent.Realtime.SubscribeToTable | src/agents/RealtimeAgent.ts:285-295 | a subscription is stored under table:event:suffix for that table |
| RealtimeAgent.Realtime.UnsubscribeFromTable | src/agents/RealtimeAgent.ts:298-304 | the returned unsubscribe removes that entry if it is still there and changes nothing else |
| RealtimeAgent.Realtime.SubscribeToSongUpdates | src/agents/RealtimeAgent.ts:310-312 | the callback listens on "song:updated" and nowhere else |
| RealtimeAgent.Realtime.SubscribeToSetlistUpdates | src/agents/RealtimeAgent.ts:317-326 | the callback is added to each of the six setlist events and to no other |
| RealtimeAgent.Realtime.UnsubscribeFromSetlistUpdates | src/agents/RealtimeAgent.ts:328-330 | the returned unsubscribe removes the callback from all six events and from no other |
| RealtimeAgent.Realtime.Shutdown | src/agents/RealtimeAgent.ts:37-47 | shutting down an initialised agent clears its handlers and drops every subscription |
| RealtimeAgent.AddThenRemove | src/agents/RealtimeAgent.ts:263-279 | adding a new listener and then calling the returned unsubscribe restores every event's listeners |
| SetlistAgent.ItemsOf | src/agents/SetlistAgent.ts:338 | the items of a setlist are exactly the rows whose setlist id is that setlist |
| SetlistAgent.Shifted | src/agents/SetlistAgent.ts:357-361 | the shift keeps every row and its setlist and song, and leaves other setlists' rows and rows below the start untouched |
| SetlistAgent.ShiftedItemsOf | src/agents/SetlistAgent.ts:357-361 | a shift moves no row between setlists |
| SetlistAgent.ScanFindsHighest | src/agents/SetlistAgent.ts:335-340 | an item whose position no item of the setlist exceeds holds the highest position |
| SetlistAgent.LastIndexOf | src/agents/SetlistAgent.ts:509-515 | the last index of an id in the list, -1 exactly when it is absent |
| SetlistAgent.Reordered | src/agents/SetlistAgent.ts:509-515 | the reorder keeps every row and its setlist and leaves rows not listed untouched |
| SetlistAgent.DistinctCardinality | src/agents/SetlistAgent.ts:509 | a duplicate-free list has as many distinct ids as entries |
| SetlistAgent.AppendKeepsContiguous | src/agents/SetlistAgent.ts:347-350 | appending after the highest position, or at 0 in an empty setlist, keeps positions 0..n-1 each used once |
| SetlistAgent.AppendDistinct | src/agents/SetlistAgent.ts:347-350 | the appended position is new, so positions stay distinct |
| SetlistAgent.AppendMembers | src/agents/SetlistAgent.ts:370-382 | after the append the setlist holds its old items and the new one |
| SetlistAgent.AppendAbove | src/agents/SetlistAgent.ts:347-350 | in a contiguous setlist the appended position is its size, above every position it holds |
| SetlistAgent.InsertAtKeepsContiguous | src/agents/SetlistAgent.ts:352-362 | inserting at a position in 0..n after moving the items at or above it up one keeps the setlist contiguous |
| SetlistAgent.InsertAtMembers | src/agents/SetlistAgent.ts:352-382 | after the insert the setlist holds its old items and the new one |
| SetlistAgent.InsertAtRange | src/agents/SetlistAgent.ts:352-362 | after the insert every position of the setlist lies in 0..n |
| SetlistAgent.InsertAtDistinct | src/agents/SetlistAgent.ts:352-362 | after the insert no two items of the setlist share a position |
| SetlistAgent.RemoveKeepsContiguous | src/agents/SetlistAgent.ts:441-459 | deleting an item and moving the items above it down one keeps its setlist contiguous |
| SetlistAgent.RemoveMembers | src/agents/SetlistAgent.ts:441-459 | after the removal the setlist holds its other items |
| SetlistAgent.RemoveRange | src/agents/SetlistAgent.ts:454-459 | after the removal every position lies in 0..n-2 |
| SetlistAgent.RemoveDistinct | src/agents/SetlistAgent.ts:454-459 | after the removal no two items share a position |
| SetlistAgent.DistinctLastIndex | src/agents/SetlistAgent.ts:509-515 | in a duplicate-free list the i-th id's last index is i |
| SetlistAgent.ReorderedContiguous | src/agents/SetlistAgent.ts:501-515 | reordering by a duplicate-free list of exactly the setlist's items gives the i-th item position i, so the setlist is contiguous |
| SetlistAgent.ReorderStep | src/agents/SetlistAgent.ts:509-515 | one turn of the reorder loop updates the i-th listed row when it exists |
| SetlistAgent.SetlistStore.constructor | src/agents/SetlistAgent.ts:9-29 | the two tables start empty |
| SetlistAgent.SetlistStore.HighestPosition | src/agents/SetlistAgent.ts:678-693 | the query finds no row exactly for an empty setlist, and otherwise the highest position among its items |
| SetlistAgent.SetlistStore.AddSong | src/agents/SetlistAgent.ts:671-750 | a failed position query or shift changes nothing and a failed insert leaves the shift done; otherwise the new item takes the given position after the items at or above it move up one, or else the position after the highest (0 for none), and the setlist's update time is refreshed; other setlists are never touched |
| SetlistAgent.SetlistStore.RemoveSong | src/agents/SetlistAgent.ts:424-470 | an unknown item or a failed delete changes nothing; a failed shift leaves the item deleted and the others unmoved; otherwise the items of the setlist above its position move down one and the update time is refreshed |
| SetlistAgent.SetlistStore.ReorderSongs | src/agents/SetlistAgent.ts:501-528 | the i-th listed item gets position i, ids without a row change nothing and a later mention wins; a failed update stops the loop with only the earlier entries applied and the update time unchanged |
| SetlistAgent.SetlistStore.DeleteSetlist | src/agents/SetlistAgent.ts:172-200 | the items are deleted before the row; a failed first delete changes nothing and a failed second leaves the row without its items |
| SetlistAgent.SetlistStore.CreateSetlist | src/agents/SetlistAgent.ts:559-580 | a new row with the name and description, created and updated now, under the id the database gives it |
| SetlistAgent.SetlistStore.UpdateSetlist | src/agents/SetlistAgent.ts:119-140 | an unknown id fails and changes nothing; otherwise name, description and update time are replaced |
| SetlistAgent.SetlistStore.GetSetlist | src/agents/SetlistAgent.ts:627-660 | an unknown id fails; otherwise the row and exactly the setlist's items |
| SetlistAgent.AddKeepsContiguous | src/agents/SetlistAgent.ts:671-750 | a successful add, with no position or a position in 0..n, keeps the setlist contiguous |
| SetlistAgent.RemoveKeepsContiguousStore | src/agents/SetlistAgent.ts:424-470 | a successful removal of one of a setlist's items keeps it contiguous |
| SetlistAgent.InsertOutsideBreaksContiguous | src/agents/SetlistAgent.ts:697-708 | a position below 0 or above n, which the code accepts unchecked, never leaves the setlist contiguous |
| SetlistAgent.ShiftWithoutInsertLeavesHole | src/agents/SetlistAgent.ts:697-729 | after a shift whose insert fails no item of the setlist holds the requested position |
| SetlistAgent.ShiftWithoutInsertExample | src/agents/SetlistAgent.ts:697-729 | one item at 0, a shift for 0 and a failed insert leave the setlist non-contiguous |
| SetlistAgent.DeleteWithoutShiftExample | src/agents/SetlistAgent.ts:441-463 | items at 0 and 1, the first deleted and the shift failing, leave the setlist non-contiguous |
| SetlistAgent.PartialReorderExample | src/agents/SetlistAgent.ts:509-518 | swapping two items and failing at the second update leaves both at position 0 |
| SetlistEditor.HasSetAppend | src/components/SetlistEditor.tsx:24-30 | one more song adds its set number to the sets that occur, and nothing else |
| SetlistEditor.SetNumbers | src/components/SetlistEditor.tsx:33 | the keys of the grouping are distinct and are exactly the set numbers that occur |
| SetlistEditor.PushKeepsGrouped | src/components/SetlistEditor.tsx:25-28 | one step of the reduce keeps every group equal to the songs seen so far of that set, in order |
| SetlistEditor.GroupBySet | src/components/SetlistEditor.tsx:24-30 | the reduce has a group exactly for each set number that occurs, holding that set's songs in setlist order |
| SetlistEditor.SetOrder | src/components/SetlistEditor.tsx:33-35 | the sets shown are the set numbers that occur, rearranged |
| SetlistEditor.Arrange | src/components/SetlistEditor.tsx:24-39 | the editor shows the sets sorted numerically and each set's songs sorted by position, a group for exactly each shown set |
| SetlistEditor.SortStep | src/components/SetlistEditor.tsx:37-39 | with the sets ascending, the i-th set has a group, and sorting it by position extends the sorted groups to the first i + 1 sets |
| SetlistEditor.SameElements | src/components/SetlistEditor.tsx:35 | a rearranged list has the same elements |
| SetlistEditor.DistinctCountsOnce | src/components/SetlistEditor.tsx:33 | a list without repetitions has each element at most once |
| SetlistEditor.CountsOnceDistinct | src/components/SetlistEditor.tsx:35 | a list with each element at most once has no repetitions |
| SetlistEditor.SetOrderAscending | src/components/SetlistEditor.tsx:33-35 | the sets are shown in strictly ascending numeric order, each set number once, and exactly the sets that occur |
| SetlistEditor.ArrangedGroup | src/components/SetlistEditor.tsx:38 | the group a set shows has as many songs as the set has |
| SetlistEditor.PositionOrderIsTotal | src/components/SetlistEditor.tsx:38 | the comparator by position is total and transitive, so the sort orders each group |
| SetlistEditor.ArrangedGroupContents | src/components/SetlistEditor.tsx:24-39 | each song lands in exactly the group of its set number, each group is sorted by position and holds its set's songs with their multiplicity |
| SetlistEditor.GroupSizesOfNone | src/components/SetlistEditor.tsx:24-30 | with no songs the group sizes add to 0 over any list of sets |
| SetlistEditor.GroupSizesAppend | src/components/SetlistEditor.tsx:28 | one more song adds one to the total for each listed occurrence of its set |
| SetlistEditor.GroupSizesTotal | src/components/SetlistEditor.tsx:24-30 | over a list naming each set once the group sizes add up to the number of songs |
| SetlistEditor.ArrangementCoversAll | src/components/SetlistEditor.tsx:24-39 | the groups shown hold every song of the setlist exactly once |
| SetlistEditor.IndexOfId | src/components/SetlistEditor.tsx:102-103 | findIndex gives the first song with the id, or -1 exactly when none has it |
| SetlistEditor.Moved | src/components/SetlistEditor.tsx:113-115 | taking an element out and putting it back keeps the length |
| SetlistEditor.MovedPlaces | src/components/SetlistEditor.tsx:113-115 | the move is a permutation placing the moved element at the target index and keeping the others in their relative order |
| SetlistEditor.MovedBack | src/components/SetlistEditor.tsx:113-115 | dragging the song back from where it landed to where it was undoes the move |
| SetlistEditor.Renumbered | src/components/SetlistEditor.tsx:120-125 | one write for each song of the reordered set |
| SetlistEditor.RenumberedPositions | src/components/SetlistEditor.tsx:120-125 | song i of the new order is written at position i + 1 in the set dropped on |
| SetlistEditor.Drop | src/components/SetlistEditor.tsx:89-133 | with nothing dragged, a drop on itself or an id missing from the set nothing is written; otherwise the set's songs, with the dragged one moved to the target index, are written at positions 1..n |
| SetlistEditor.DropShowsNewOrder | src/components/SetlistEditor.tsx:113-125 | once a drop's writes are applied the sort by position shows the set in its new order, the dragged song at the target index |
| SetlistList.SetNumbersShown | src/components/SetlistList.tsx:45 | the set list shown is the distinct set numbers, rearranged |
| SetlistList.AsStringsOrders | src/components/SetlistList.tsx:45 | the default sort's comparison of numbers as strings is total and transitive |
| SetlistList.SetNumbersShownOnce | src/components/SetlistList.tsx:45-91 | the numbers shown are distinct, sorted as strings, and name exactly the sets of the setlist |
| SetlistList.TenAfterTwoAsStrings | src/components/SetlistList.tsx:45 | as strings 10 comes before 2 |
| SetlistList.TenBeforeTwo | src/components/SetlistList.tsx:45 | sets 2 and 10 are listed as 10, 2 |
| SetlistList.SetCountsTotal | src/components/SetlistList.tsx:101-102 | the per-set song counts over the shown sets add up to the song total |
| SetlistList.CountedSingularOnlyForOne | src/components/SetlistList.tsx:88-91 | the count is followed by the singular word exactly when it is 1, otherwise by the plural |
| SimpleAudioProcessor.WindowSizePositive | src/hooks/audioAnalysis/simpleAudioProcessor.ts:103 | from 10 Hz on the 100 ms window holds at least one sample |
| SimpleAudioProcessor.MeanSquares | src/hooks/audioAnalysis/simpleAudioProcessor.ts:106-112 | one energy per whole non-overlapping window that starts below length - windowSize |
| SimpleAudioProcessor.MeanSquaresNonNeg | src/hooks/audioAnalysis/simpleAudioProcessor.ts:107-111 | every window energy is a mean square, hence non-negative |
| SimpleAudioProcessor.WindowsDisjoint | src/hooks/audioAnalysis/simpleAudioProcessor.ts:106 | window k lies k windows in and ends before the analysed length |
| SimpleAudioProcessor.EnergyWindows | src/hooks/audioAnalysis/simpleAudioProcessor.ts:104-112 | the window loop pushes exactly the mean squares of the windows |
| SimpleAudioProcessor.WindowingStep | src/hooks/audioAnalysis/simpleAudioProcessor.ts:106-112 | one turn of the window loop reads whole samples and pushes the next mean square |
| SimpleAudioProcessor.WindowingDone | src/hooks/audioAnalysis/simpleAudioProcessor.ts:106 | when the loop ends the energies are all the windows' mean squares |
| SimpleAudioProcessor.FoldTempo | src/hooks/audioAnalysis/simpleAudioProcessor.ts:147-153 | the doubling and halving loops compute exactly Fold(bpm, 80, 160), a tempo in [80, 160] on an octave of the start, a start in range being kept, so the clamp never acts |
| SimpleAudioProcessor.TempoFromEnergies | src/hooks/audioAnalysis/simpleAudioProcessor.ts:115-153 | the threshold is 1.5 times the mean energy, peaks are found above it and both neighbours, fewer than 3 peaks or no kept interval gives 120, and otherwise the tempo is exactly Fold(round(60 / median interval), 80, 160) |
| SimpleAudioProcessor.DetectTempoFast | src/hooks/audioAnalysis/simpleAudioProcessor.ts:92-160 | over the first five seconds the energies are the windows' mean squares; no window gives 120, otherwise the energy route's outcome (120 or the folded median tempo); the tempo always lies in [80, 160] |
| SimpleAudioProcessor.ChunkCount | src/hooks/audioAnalysis/simpleAudioProcessor.ts:178-184 | at most five chunks are taken |
| SimpleAudioProcessor.NoChunkWhenShort | src/hooks/audioAnalysis/simpleAudioProcessor.ts:178 | no chunk is taken from 2048 samples or fewer, and at least one from more |
| SimpleAudioProcessor.Chunk | src/hooks/audioAnalysis/simpleAudioProcessor.ts:179 | every chunk taken is a full 2048 samples |
| SimpleAudioProcessor.Spectra | src/hooks/audioAnalysis/simpleAudioProcessor.ts:178-184 | one spectrum per chunk taken |
| SimpleAudioProcessor.CollectSpectra | src/hooks/audioAnalysis/simpleAudioProcessor.ts:175-184 | the chunk loop with its break after five spectra collects exactly the spectra of the chunks |
| SimpleAudioProcessor.AverageSpectrum | src/hooks/audioAnalysis/simpleAudioProcessor.ts:192-198 | the nested loops leave each bin holding the sum over the spectra of that bin divided by their number |
| SimpleAudioProcessor.JsRem12 | src/hooks/audioAnalysis/simpleAudioProcessor.ts:204 | JavaScript's % by 12 keeps the dividend's sign |
| SimpleAudioProcessor.JsRem12Range | src/hooks/audioAnalysis/simpleAudioProcessor.ts:204-205 | the remainder lies in (-12, 12) and passes `>= 0` exactly for a non-negative dividend or a multiple of 12, being then the residue mod 12 |
| SimpleAudioProcessor.PitchIndex | src/hooks/audioAnalysis/simpleAudioProcessor.ts:201-209 | a bin that reaches the chroma does so at a class below 12 |
| SimpleAudioProcessor.PitchIndexCharacterized | src/hooks/audioAnalysis/simpleAudioProcessor.ts:202-205 | a bin reaches the chroma exactly when its frequency is in (80, 2000) Hz and its semitone offset from 440 Hz is non-negative or a multiple of 12, and then at that offset's residue mod 12 |
| SimpleAudioProcessor.BinChroma | src/hooks/audioAnalysis/simpleAudioProcessor.ts:200-209 | the chroma has 12 classes |
| SimpleAudioProcessor.Shares | src/hooks/audioAnalysis/simpleAudioProcessor.ts:205-207 | one share of the class per bin |
| SimpleAudioProcessor.BinChromaIsClassSum | src/hooks/audioAnalysis/simpleAudioProcessor.ts:201-209 | class p holds the sum of the average magnitudes of exactly the bins 1..n-1 that map to p |
| SimpleAudioProcessor.BinChromaNonNeg | src/hooks/audioAnalysis/simpleAudioProcessor.ts:206 | non-negative magnitudes give a non-negative chroma |
| SimpleAudioProcessor.MapToChroma | src/hooks/audioAnalysis/simpleAudioProcessor.ts:200-209 | the bin loop fills the 12 classes with the class sums |
| SimpleAudioProcessor.DominantNote | src/hooks/audioAnalysis/simpleAudioProcessor.ts:212-219 | the scan yields the first class with the strictly greatest positive chroma, else 0 |
| SimpleAudioProcessor.NoPositiveClassIsC | src/hooks/audioAnalysis/simpleAudioProcessor.ts:212-213 | a chroma with no positive class names C |
| SimpleAudioProcessor.DetectKeyFast | src/hooks/audioAnalysis/simpleAudioProcessor.ts:163-232 | over the first three seconds, no chunk gives "C Major"; otherwise the dominant pitch class of the binned average spectrum, always named as a major key |
| Songs.Ids | src/components/PlaylistCreator.tsx:42 | `.map(song => song.id)` gives one id per song, in song order |
| SongListUpdates.Replaced | src/hooks/useAgentSongManagement.ts:197-199 | the list keeps its length, the songs with the updated song's id become it and every other song stays |
| SongListUpdates.ReplacedKeepsIds | src/hooks/useSongManagement.ts:51-53 | replacing a song keeps the list of ids |
| SongListUpdates.ReplacedIdempotent | src/hooks/useAgentSongManagement.ts:197-199 | applying the same update twice is applying it once |
| SongListUpdates.WithoutId | src/hooks/useAgentSongManagement.ts:245 | the list keeps exactly the songs with another id, so none with the id remains |
| SongListUpdates.WithoutAlbum | src/hooks/useAgentSongManagement.ts:292 | the list keeps exactly the songs of other albums |
| SongListUpdates.WithoutAbsentId | src/hooks/useAgentSongManagement.ts:245 | deleting an id no song has leaves the list as it was |
| SongListUpdates.WithoutAlbumCount | src/hooks/useAgentSongManagement.ts:292 | deleting an album removes as many songs as the album had |
| Sorting.Sort | src/hooks/audioAnalysis/meydaProcessor.ts:188 | sorting with `(a, b) => a - b` gives an ascending permutation |
| Sorting.Median | src/hooks/audioAnalysis/meydaProcessor.ts:188-189 | the element at index floor(n / 2) of the sorted intervals is one of the intervals |
| Sorting.MedianWithin | src/hooks/audioAnalysis/tempoAnalysis.ts:81-84 | when every interval lies strictly between two bounds, so does the median |
| Sorting.SortedEnds | src/hooks/audioAnalysis/simpleAudioProcessor.ts:145 | in the sorted intervals the first is the least and the last the greatest |
| Sorting.SortedMonotone | src/hooks/audioAnalysis/simpleAudioProcessor.ts:145 | an earlier element of the sorted intervals is at most a later one |
| Sorting.SortSameElements | src/hooks/audioAnalysis/tempoAnalysis.ts:81 | sorting keeps exactly the same intervals |
| Strings.ContainsEmpty | src/components/AddSongToSetlistModal.tsx:29-31 | every string includes the empty search term |
| Strings.IndexOf | src/hooks/audioAnalysis/keyAnalysis.ts:135 | indexOf gives the first index of the element and -1 exactly when it is absent |
| Strings.FirstWord | src/hooks/audioAnalysis/keyAnalysis.ts:135 | split(' ')[0] is the prefix of the string before its first space |
| Strings.FirstWordOfPrefixed | src/hooks/audioAnalysis/keyAnalysis.ts:135 | the first word of a note name followed by a space is that note name |
| Strings.NatToString | src/components/AnalysisProgressIndicator.tsx:39 | the decimal rendering of a count is one or more digits, one for a number below 10 and two below 100 |
| Strings.NatToStringValue | src/components/AnalysisProgressIndicator.tsx:39 | reading the digits back gives the number |
| Strings.Lower | src/components/MainContent.tsx:75-80 | toLowerCase keeps the length and lower-cases each ASCII letter |
| Strings.TextLessIrreflexive | src/components/MainContent.tsx:96-99 | no string is below itself |
| Strings.TextLessTransitive | src/components/MainContent.tsx:96-99 | the string order is transitive |
| Strings.TextLessConnected | src/components/MainContent.tsx:96-99 | of two different strings one is below the other |
| TempoAnalysis.WindowAndHopPositive | src/hooks/audioAnalysis/tempoAnalysis.ts:22-23 | from 40 Hz on the 50 ms window holds at least 2 samples and the hop is at least 1, so the window loop advances |
| TempoAnalysis.WindowAt | src/hooks/audioAnalysis/tempoAnalysis.ts:29-31 | every window read is a full window inside the analysed samples |
| TempoAnalysis.Energies | src/hooks/audioAnalysis/tempoAnalysis.ts:29-38 | one energy per window starting below length - windowSize, every hop |
| TempoAnalysis.EnergiesNonNeg | src/hooks/audioAnalysis/tempoAnalysis.ts:34 | every RMS energy is non-negative |
| TempoAnalysis.WindowIndices | src/hooks/audioAnalysis/tempoAnalysis.ts:36 | the windows are numbered 0..n-1 |
| TempoAnalysis.TimestampsIncreasing | src/hooks/audioAnalysis/tempoAnalysis.ts:36 | the windows' timestamps are strictly increasing |
| TempoAnalysis.WindowEnergy | src/hooks/audioAnalysis/tempoAnalysis.ts:30-33 | the inner loop leaves the window's sum of squares |
| TempoAnalysis.EnergyEnvelope | src/hooks/audioAnalysis/tempoAnalysis.ts:24-38 | the window loop pushes exactly the RMS energy of every window |
| TempoAnalysis.ThresholdAtLeastMean | src/hooks/audioAnalysis/tempoAnalysis.ts:42-44 | the threshold, the mean plus 0.3 standard deviations, is never below the mean |
| TempoAnalysis.BeatsAreExactlyPeaks | src/hooks/audioAnalysis/tempoAnalysis.ts:46-59 | a window is a beat exactly when it is in [1, n - 1) and its energy is above the threshold and strictly above both neighbours; there is no spacing rule |
| TempoAnalysis.AdjustMultiples | src/hooks/audioAnalysis/tempoAnalysis.ts:89-106 | at most two doublings below 80 and two halvings above 180, then the clamp, land in [70, 180], keeping a value in [80, 180], with the exact value for every range of the estimate |
| TempoAnalysis.MedianBpmRange | src/hooks/audioAnalysis/tempoAnalysis.ts:70-84 | a median interval in (0.25, 2.0) gives round(60 / median) in [30, 240] |
| TempoAnalysis.FractionalOnlyAfterHalving | src/hooks/audioAnalysis/tempoAnalysis.ts:84-106 | for an estimate in [30, 240] the result lies in [80, 180] and is whole unless an odd estimate was halved, when it ends in .5 |
| TempoAnalysis.MedianTempo | src/hooks/audioAnalysis/tempoAnalysis.ts:81-108 | the median of the kept intervals lies in (0.25, 2.0) and the tempo is its estimate adjusted for multiples |
| TempoAnalysis.FallbackRatio | src/hooks/audioAnalysis/tempoAnalysis.ts:115-140 | 60 sr / lag exceeds 40 for every lag the fallback can report, so its rounded value is a positive start for the fold |
| TempoAnalysis.FallbackTempoDetection | src/hooks/audioAnalysis/tempoAnalysis.ts:112-148 | the fallback reports the first best-scoring lag of its scan and exactly the tempo Fold(round(60 sr / lag), 70, 180), in [70, 180] on an octave of round(60 sr / lag) |
| TempoAnalysis.FallbackLagScan | src/hooks/audioAnalysis/tempoAnalysis.ts:119-138 | the lag loop keeps the first lag with the highest score, starting from -1 and minLag |
| TempoAnalysis.FoldFallback | src/hooks/audioAnalysis/tempoAnalysis.ts:140-147 | doubling below 70 and halving above 180 compute exactly Fold(bpm, 70, 180), in [70, 180] on an octave of the start, an in-range start being kept, so the clamp never acts |
| TempoAnalysis.TempoFromEnergies | src/hooks/audioAnalysis/tempoAnalysis.ts:41-108 | fewer than 8 beats or fewer than 4 kept intervals take the fallback, whose tempo is the reference fold of its chosen lag; otherwise the median tempo |
| TempoAnalysis.DetectTempoFromBeats | src/hooks/audioAnalysis/tempoAnalysis.ts:3-109 | no energy window makes `reduce` throw; otherwise the beat route's median tempo or the fallback's reference fold of its chosen lag, with a tempo in [70, 180] |
| TempoAnalysis.NoEnergyWhenShort | src/hooks/audioAnalysis/tempoAnalysis.ts:29-42 | no energy window runs exactly when at most one window of samples is analysed |
| TempoDetection.PositiveDiffOverZeros | src/utils/audioAnalysis/tempoDetection.ts:25-54 | against the all-zero first previous spectrum the positive-difference sum of a non-negative spectrum is its total |
| TempoDetection.Flux | src/utils/audioAnalysis/tempoDetection.ts:24-58 | one onset value per window |
| TempoDetection.FluxProperties | src/utils/audioAnalysis/tempoDetection.ts:50-56 | every onset value is non-negative, and the first window's is the total magnitude of its spectrum |
| TempoDetection.SpectralFlux | src/utils/audioAnalysis/tempoDetection.ts:24-58 | the window loop yields the flux of every window against the previous one's spectrum |
| TempoDetection.BinOf | src/utils/audioAnalysis/tempoDetection.ts:102-107 | an interval is counted only in one of the 100 bins |
| TempoDetection.Histogram | src/utils/audioAnalysis/tempoDetection.ts:98-109 | the histogram has 100 bins |
| TempoDetection.BuildHistogram | src/utils/audioAnalysis/tempoDetection.ts:98-109 | the forEach loop builds exactly the per-bin counts of the intervals |
| TempoDetection.MaxCount | src/utils/audioAnalysis/tempoDetection.ts:111 | Math.max of the histogram is one of its counts and no count exceeds it |
| TempoDetection.FirstFullest | src/utils/audioAnalysis/tempoDetection.ts:111 | indexOf(max) is the first bin holding the largest count: every earlier bin holds strictly fewer |
| TempoDetection.FirstIndexOf | src/utils/audioAnalysis/tempoDetection.ts:111 | indexOf returns the first position holding the value |
| TempoDetection.BinOfSortedInterval | src/utils/audioAnalysis/tempoDetection.ts:99-107 | with a positive bin size every interval below the maximum lands in bin floor((x - min) / binSize), and the maximum itself, at index 100, is never counted |
| TempoDetection.ZeroBinSizeGivesMinimum | src/utils/audioAnalysis/tempoDetection.ts:99-112 | when all intervals are equal nothing is counted and the dominant interval is the minimum |
| TempoDetection.DominantWithin | src/utils/audioAnalysis/tempoDetection.ts:97-112 | the dominant interval lies between the smallest and the largest interval |
| TempoDetection.SortedWithin | src/utils/audioAnalysis/tempoDetection.ts:88-112 | intervals strictly inside (0.3, 2.0) give a dominant interval strictly inside that range |
| TempoDetection.FindDominantInterval | src/utils/audioAnalysis/tempoDetection.ts:98-112 | the histogram loop and indexOf give the centre of the first fullest bin |
| TempoDetection.FoldTempo | src/utils/audioAnalysis/tempoDetection.ts:114-122 | the two while loops compute exactly round(Fold(bpm, 80, 160)), in [80, 160], a bpm already in range being only rounded, so the [60, 200] clamp never acts |
| TempoDetection.HistogramTempo | src/utils/audioAnalysis/tempoDetection.ts:97-122 | the histogram path's tempo is exactly round(Fold(60 / dominant interval, 80, 160)) and lies in [80, 160] |
| TempoDetection.AutocorrTable | src/utils/audioAnalysis/tempoDetection.ts:132-143 | the table holds maxLag - minLag entries |
| TempoDetection.FillAutocorrelation | src/utils/audioAnalysis/tempoDetection.ts:132-143 | the lag loop fills entry lag - minLag with the mean product at that lag for every lag below the data length, the rest staying 0 |
| TempoDetection.ScanTable | src/utils/audioAnalysis/tempoDetection.ts:145-153 | the scan from -Infinity always finds an index, the first strict maximum of the table |
| TempoDetection.LagTempo | src/utils/audioAnalysis/tempoDetection.ts:155-157 | the autocorrelation tempo always lies in [60, 200] |
| TempoDetection.AutocorrelationTempo | src/utils/audioAnalysis/tempoDetection.ts:126-158 | the tempo is the clamped rounded 60 * sampleRate / lag of the first strict maximum of the lag table |
| TempoDetection.EveryPeakKept | src/utils/audioAnalysis/tempoDetection.ts:66-74 | with no spacing rule every local peak of radius 2 above 1.5 times the mean, from frame 3 to length - 4, is picked |
| TempoDetection.TempoFromFlux | src/utils/audioAnalysis/tempoDetection.ts:62-122 | the histogram path is taken exactly with at least 8 peaks and 4 intervals and then gives round(Fold(60 / dominant interval, 80, 160)); otherwise the tempo is autocorrelationTempo's; either way it lies in [60, 200] |
| TempoDetection.FrameCount | src/utils/audioAnalysis/tempoDetection.ts:23 | every counted window fits in the analysed samples, and the count is 0 exactly when fewer than 2560 samples are analysed |
| TempoDetection.DetectTempo | src/utils/audioAnalysis/tempoDetection.ts:3-123 | fewer than 2048 analysed samples throw on the frame array and fewer than 2560 on the empty envelope; otherwise the tempo, in [60, 200], is reached through the filtered signal and its onset envelope: round(Fold(60 / dominant interval, 80, 160)) on the histogram route, the clamped rounded 60 sr / lag of the first strict maximum on the autocorrelation route |
| UIAgent.ModalKey | src/agents/UIAgent.ts:49 | a modal's state key is `modal:` followed by its id |
| UIAgent.ModalKeyInjective | src/agents/UIAgent.ts:49 | distinct modals never share a state key |
| UIAgent.Without | src/agents/UIAgent.ts:86 | the filtered stack (or listener list) holds exactly the other elements, and an absent element leaves it unchanged |
| UIAgent.WithoutConcat | src/agents/UIAgent.ts:86 | the filter keeps the remaining ids in their order |
| UIAgent.ShowThenHide | src/agents/UIAgent.ts:227-246 | hiding a modal just shown on top leaves the stack as hiding it would have before |
| UIAgent.UI.constructor | src/agents/UIAgent.ts:8-17 | a new agent has an empty stack, no state and no listeners |
| UIAgent.UI.GetState | src/agents/UIAgent.ts:198-200 | a stored key gives its value and any other key undefined |
| UIAgent.UI.ListenersOf | src/agents/UIAgent.ts:187 | a key without a listener set has no listeners, otherwise its listeners in insertion order |
| UIAgent.ListenerRunUnique | src/agents/UIAgent.ts:189-191 | the listeners setState calls, and the one that throws, are fully determined by the listener order |
| UIAgent.UI.SetState | src/agents/UIAgent.ts:183-193 | the value is stored under its key and every other key keeps its value; that key's listeners are called in insertion order until one throws: the called listeners are a prefix of the list, all of them when none throws, and otherwise ending with the first listener that throws |
| UIAgent.UI.SubscribeToState | src/agents/UIAgent.ts:205-210 | the listener is added at the end of the key's list, which is created when absent, and a listener already there keeps its place; no state changes |
| UIAgent.UI.Unsubscribe | src/agents/UIAgent.ts:213-221 | the listener leaves the key's list, the others keeping their order, and an emptied list is dropped |
| UIAgent.UI.IsModalVisible | src/agents/UIAgent.ts:251-254 | a modal is visible exactly when its stored state is a modal state marked visible |
| UIAgent.UI.GetModalProps | src/agents/UIAgent.ts:266-269 | a modal with no stored state has null props, otherwise its stored props |
| UIAgent.UI.GetTopModal | src/agents/UIAgent.ts:259-261 | the top modal is the last one pushed, and there is none exactly when the stack is empty |
| UIAgent.UI.ShowModal | src/agents/UIAgent.ts:227-234 | the modal becomes visible with its props; without a listener throw it is pushed and becomes the top of the stack, and a throw leaves the stack as it was; every other modal keeps its visibility and props |
| UIAgent.UI.HideModal | src/agents/UIAgent.ts:239-246 | the modal becomes hidden with null props; without a listener throw it leaves the stack entirely, and a throw leaves the stack as it was; other modals keep their visibility and props |
| UIAgent.UI.HandleShowModal | src/agents/UIAgent.ts:39-71 | the modal is pushed and shown; the task completes with `ui:show_modal:completed`, or, when a listener throws, fails with that listener's error and the sender gets `ui:show_modal:failed` |
| UIAgent.UI.HandleHideModal | src/agents/UIAgent.ts:78-110 | the modal is removed and hidden; the task completes with `ui:hide_modal:completed`, or, when a listener throws, fails with its error and the sender gets `ui:hide_modal:failed` |
| UIAgent.UI.HandleSetState | src/agents/UIAgent.ts:117-143 | the value is stored; the task completes with `ui:set_state:completed`, or, when a listener throws, fails with its error and the sender gets `ui:set_state:failed` |
| UIAgent.UI.HandleGetState | src/agents/UIAgent.ts:150-167 | only the task changes: its result is the stored value, or none, and the sender gets `ui:get_state:completed` |
| UIAgent.NeverShownModal | src/agents/UIAgent.ts:251-269 | a modal never shown is not visible and has null props |
| AgentPlayerState.FindIndex | src/hooks/useAgentPlayerState.ts:136-153 | findIndex gives the first song with that id, or -1 exactly when no song has it |
| AgentPlayerState.FindIndexOfDistinct | src/hooks/useAgentPlayerState.ts:136-153 | with distinct ids a song is found at its own index |
| AgentPlayerState.JsRemainder | src/hooks/useAgentPlayerState.ts:139-156 | JavaScript's % keeps the dividend's sign and agrees with the mathematical remainder for non-negative dividends |
| AgentPlayerState.NextIndex | src/hooks/useAgentPlayerState.ts:136-140 | the next index is always inside the list |
| AgentPlayerState.PrevIndex | src/hooks/useAgentPlayerState.ts:153-157 | the previous index is always inside the list |
| AgentPlayerState.StepsFromPresent | src/hooks/useAgentPlayerState.ts:136-157 | from a song in the list next moves one on and previous one back, wrapping at both ends |
| AgentPlayerState.StepsFromMissing | src/hooks/useAgentPlayerState.ts:136-157 | from a song not in the list next goes to the first song and previous to the second-to-last, or the only song |
| AgentPlayerState.PrevUndoesNext | src/hooks/useAgentPlayerState.ts:130-162 | with distinct ids, stepping back after stepping forward returns to the song played |
| AgentPlayerState.Player.constructor | src/hooks/useAgentPlayerState.ts:9-14 | no song, paused, volume 0.8, times 0 and lyrics hidden |
| AgentPlayerState.Player.SongSelect | src/hooks/useAgentPlayerState.ts:23-32 | the chosen song becomes current and plays; nothing else changes |
| AgentPlayerState.Player.UpdateCurrentSong | src/hooks/useAgentPlayerState.ts:35-44 | only a current song with the updated song's id is replaced |
| AgentPlayerState.Player.SongOrAlbumDelete | src/hooks/useAgentPlayerState.ts:47-75 | the current song is cleared and playback stops exactly when a non-empty id matches it or a non-empty album name matches its album |
| AgentPlayerState.Player.TogglePlayPause | src/hooks/useAgentPlayerState.ts:78-85 | playing flips and nothing else changes |
| AgentPlayerState.Player.SetIsPlaying | src/hooks/useAgentPlayerState.ts:195-197 | playing takes the value and nothing else changes |
| AgentPlayerState.Player.VolumeChange | src/hooks/useAgentPlayerState.ts:88-95 | the volume takes the value and nothing else changes |
| AgentPlayerState.Player.TimeUpdate | src/hooks/useAgentPlayerState.ts:98-105 | the current time takes the value and nothing else changes |
| AgentPlayerState.Player.DurationChange | src/hooks/useAgentPlayerState.ts:108-115 | the duration takes the value and nothing else changes |
| AgentPlayerState.Player.Seek | src/hooks/useAgentPlayerState.ts:118-127 | the current time moves to the seek time, which is returned |
| AgentPlayerState.Player.PlayNextSong | src/hooks/useAgentPlayerState.ts:130-145 | with a current song and songs, the next one by wrap-around becomes current and plays; otherwise nothing changes |
| AgentPlayerState.Player.PlayPreviousSong | src/hooks/useAgentPlayerState.ts:147-162 | with a current song and songs, the previous one by wrap-around becomes current and plays; otherwise nothing changes |
| AgentPlayerState.Player.ToggleLyrics | src/hooks/useAgentPlayerState.ts:164-171 | the lyrics panel flips and nothing else changes |
| AgentPlayerState.Player.SetShowLyrics | src/hooks/useAgentPlayerState.ts:203-205 | the lyrics panel takes the value and nothing else changes |
| AgentPlayerState.Player.LoadLyrics | src/hooks/useAgentPlayerState.ts:174-186 | the lyrics agent's answer for the current song, and none before initialisation or without a current song |
| AgentSetlistManagement.Renamed | src/hooks/useAgentSetlistManagement.ts:132-134 | the setlist with that id takes the new name and description and every other setlist is unchanged |
| AgentSetlistManagement.WithAddedSortedPermutation | src/hooks/useAgentSetlistManagement.ts:224-235 | the list after an add is sorted by position and holds the old items plus the new one |
| AgentSetlistManagement.AddedLastAppends | src/hooks/useAgentSetlistManagement.ts:224-235 | an item placed behind every existing position ends up last, after the others in their order |
| AgentSetlistManagement.Renumbered | src/hooks/useAgentSetlistManagement.ts:327-330 | each item keeps everything but its position, which becomes its index |
| AgentSetlistManagement.RenumberedSorted | src/hooks/useAgentSetlistManagement.ts:325-333 | renumbered items are sorted by position with distinct positions 0..n-1 |
| AgentSetlistManagement.SetlistManagement.constructor | src/hooks/useAgentSetlistManagement.ts:11-13 | no setlists, no current setlist and no items |
| AgentSetlistManagement.SetlistManagement.UpdateSetlist | src/hooks/useAgentSetlistManagement.ts:113-158 | after a successful call the matching setlist, and the current one when it matches, are renamed; otherwise nothing changes |
| AgentSetlistManagement.SetlistManagement.DeleteSetlist | src/hooks/useAgentSetlistManagement.ts:161-206 | after a successful call exactly the setlists with that id are gone, and deleting the current one clears it and its items |
| AgentSetlistManagement.SetlistManagement.AddSongToSetlist | src/hooks/useAgentSetlistManagement.ts:209-258 | after a successful call to the current setlist its items are sorted by position and hold the old ones plus the new item |
| AgentSetlistManagement.SetlistManagement.RemoveSongFromSetlist | src/hooks/useAgentSetlistManagement.ts:261-303 | after a successful call to the current setlist exactly the items with that id are gone |
| AgentSetlistManagement.SetlistManagement.ReorderSetlistSongs | src/hooks/useAgentSetlistManagement.ts:306-348 | after a successful call to the current setlist its items are the given ones numbered by index |
| AgentSongManagement.WithAnalysis | src/hooks/useAgentSongManagement.ts:332-338 | an analysis outcome replaces the key and tempo of the analysed song only, and a failed analysis changes nothing |
| AgentSongManagement.AfterAnalysesStep | src/hooks/useAgentSongManagement.ts:389-434 | analysing the next song of the batch applies its outcome and leaves the rest of the batch to come |
| AgentSongManagement.AfterAnalysesChangesOnlyAnalysis | src/hooks/useAgentSongManagement.ts:410-416 | a whole batch keeps every song in its place and changes nothing but keys and tempos |
| AgentSongManagement.BatchProgressBounds | src/hooks/useAgentSongManagement.ts:429-430 | the progress round(100 k / n) stays in [0, 100], never decreases, and is 100 after the last song |
| AgentSongManagement.Merged | src/hooks/useAgentSongManagement.ts:461-476 | the realtime merge takes each field from the update when it is truthy and otherwise keeps the song's own |
| AgentSongManagement.MergedIdempotent | src/hooks/useAgentSongManagement.ts:461-476 | merging the same update twice is merging it once |
| AgentSongManagement.MergedEmptyRecord | src/hooks/useAgentSongManagement.ts:461-476 | an update with no truthy field leaves the song as it was |
| AgentSongManagement.MergedInto | src/hooks/useAgentSongManagement.ts:461-476 | only the song with the update's id is merged; the others are unchanged |
| AgentSongManagement.AgentSongManagement.constructor | src/hooks/useAgentSongManagement.ts:11-15 | no songs, nothing analysing, progress 0 and no batch running |
| AgentSongManagement.AgentSongManagement.UploadSong | src/hooks/useAgentSongManagement.ts:80-159 | after initialisation the created song goes to the front of the list and, with an audio file, is analysed and unmarked; otherwise nothing changes |
| AgentSongManagement.AgentSongManagement.SongUpdate | src/hooks/useAgentSongManagement.ts:162-219 | a successful update replaces the song with the matching id, a failed one changes nothing |
| AgentSongManagement.AgentSongManagement.SongDelete | src/hooks/useAgentSongManagement.ts:222-266 | a successful delete drops exactly the songs with that id, a failed one changes nothing |
| AgentSongManagement.AgentSongManagement.AlbumDelete | src/hooks/useAgentSongManagement.ts:269-313 | a successful album delete drops exactly the songs of that album, a failed one changes nothing |
| AgentSongManagement.AgentSongManagement.StartAnalysis | src/hooks/useAgentSongManagement.ts:316-363 | a song with an audio file is marked as analysing while it runs, its outcome is stored, and the mark is removed whatever the outcome; otherwise nothing happens |
| AgentSongManagement.AgentSongManagement.ProcessBatch | src/hooks/useAgentSongManagement.ts:389-434 | every song of the batch is analysed in order, the analysing set ends as it began, the progress after song k is round(100 k / n), and it ends at 100 |
| AgentSongManagement.AgentSongManagement.AnalyzeExistingSongs | src/hooks/useAgentSongManagement.ts:366-439 | exactly the unanalysed songs are analysed one after another with that progress, after which the batch flag is cleared; with none, nothing changes |
| AgentSongManagement.AgentSongManagement.RealtimeUpdate | src/hooks/useAgentSongManagement.ts:457-477 | a realtime update merges into the song with its id and changes nothing else |
| AlbumUpload.Extracted | src/hooks/useAlbumUpload.ts:43-93 | the extracted metadata always names the band as artist |
| AlbumUpload.ExtractedFields | src/hooks/useAlbumUpload.ts:43-93 | a failed audio element gives the defaults; otherwise title and album come from truthy parsed tags or the defaults, and the duration from the parsed tags, else the audio element, else 0:00 |
| AlbumUpload.NameAfterFilesChangeCases | src/hooks/useAlbumUpload.ts:21-32 | an album name already set stays; an unset one is derived from the first file; once there are files the album has a name |
| AlbumUpload.ArtUrl | src/hooks/useAlbumUpload.ts:103-111 | the uploaded art's URL when art was chosen and its upload gave a URL, else the default picture |
| AlbumUpload.DraftOfExtracted | src/hooks/useAlbumUpload.ts:128-136 | a track built from extracted metadata has the band as artist, the album art, its audio URL and the upload date, and a title and album whenever the file name and album name give one |
| AlbumUpload.UploadedCount | src/hooks/useAlbumUpload.ts:126 | no more tracks are counted than files processed |
| AlbumUpload.UploadedCountAll | src/hooks/useAlbumUpload.ts:126 | when every audio upload gives a URL every file counts |
| AlbumUpload.Drafts | src/hooks/useAlbumUpload.ts:114-154 | the tracks handed on are as many as the audio uploads that gave a URL |
| AlbumUpload.DraftsStep | src/hooks/useAlbumUpload.ts:124-139 | one more file adds its track exactly when its audio upload gave a URL |
| AlbumUpload.DraftsWellFormed | src/hooks/useAlbumUpload.ts:128-136 | every track handed on has the album art, a non-empty audio file, the band as artist and the upload date |
| AlbumUpload.DraftsAllUploaded | src/hooks/useAlbumUpload.ts:126-139 | when every audio upload succeeds every file becomes a track |
| AlbumUpload.ProgressSteps | src/hooks/useAlbumUpload.ts:150 | one progress report per file |
| AlbumUpload.ProgressStepsCount | src/hooks/useAlbumUpload.ts:150 | after file j the progress reads j + 1 |
| AlbumUpload.Uploader.constructor | src/hooks/useAlbumUpload.ts:12-17 | no files, no name, no art, not uploading and progress 0 of 0 |
| AlbumUpload.Uploader.AlbumFilesChange | src/hooks/useAlbumUpload.ts:21-32 | the files are kept and an unset album name is derived from the first one; nothing else changes |
| AlbumUpload.Uploader.SetAlbumName | src/hooks/useAlbumUpload.ts:13 | the album name takes the value and nothing else changes |
| AlbumUpload.Uploader.AlbumArtChange | src/hooks/useAlbumUpload.ts:34-41 | a chosen picture is kept with its object URL; no choice changes nothing |
| AlbumUpload.Uploader.UploadAlbum | src/hooks/useAlbumUpload.ts:95-169 | with no files nothing happens; otherwise the tracks whose audio uploaded are handed on in order with the settled art URL, the progress counts 1..n, and the form returns to its initial state |
| AlbumUpload.UploadTracks | src/hooks/useAlbumUpload.ts:114-154 | the loop hands on exactly the drafts of the files whose audio upload gave a URL, in order, and reports progress i + 1 after file i |
| PlayerState.Replacement | src/hooks/usePlayerState.ts:28-31 | the replacement, when there is one, is a listed song that survives the delete; there is none only when no song survives |
| PlayerState.ReplacementIsFirstSurvivor | src/hooks/usePlayerState.ts:28-31 | the replacement is the surviving song nearest the front of the list |
| PlayerState.ReplacementIsNotDeleted | src/hooks/usePlayerState.ts:27-31 | the deleted current song is never its own replacement |
| PlayerState.Player.constructor | src/hooks/usePlayerState.ts:6-7 | no song and paused |
| PlayerState.Player.AutoSelect | src/hooks/usePlayerState.ts:9-13 | with songs and no current song the first song becomes current; otherwise the current song stays; playing is unchanged |
| PlayerState.Player.SongSelect | src/hooks/usePlayerState.ts:15-18 | the chosen song becomes current and plays |
| PlayerState.Player.SetIsPlaying | src/hooks/usePlayerState.ts:7-39 | playing takes the value and the current song stays |
| PlayerState.Player.UpdateCurrentSong | src/hooks/usePlayerState.ts:20-24 | only a current song with the updated song's id is replaced |
| PlayerState.Player.SongOrAlbumDelete | src/hooks/usePlayerState.ts:26-34 | when the current song's id or album is deleted the first surviving song, or none, becomes current and playback stops; otherwise nothing changes |
| SongManagement.Over | src/hooks/useSongManagement.ts:92 | a present field of the patch wins and an absent one keeps the old value |
| SongManagement.Overlaid | src/hooks/useSongManagement.ts:92 | the spread overlay takes every field present in the patch, even an undefined one, and keeps the song's own for absent fields |
| SongManagement.UndefinedFieldOverwrites | src/hooks/useSongManagement.ts:92 | a patch whose key is present but undefined erases the song's key |
| SongManagement.EmptyPatchKeepsSong | src/hooks/useSongManagement.ts:92 | a patch with only the song's id gives the song back |
| SongManagement.OverlaidIdempotent | src/hooks/useSongManagement.ts:92 | overlaying the same patch twice is overlaying it once |
| SongManagement.SongManagement.constructor | src/hooks/useSongManagement.ts:11 | the list starts empty |
| SongManagement.SongManagement.UploadSong | src/hooks/useSongManagement.ts:33-44 | a created song goes to the front of the list; a failed create changes nothing |
| SongManagement.SongManagement.SongUpdate | src/hooks/useSongManagement.ts:46-58 | a successful update replaces the song with the matching id, a failed one changes nothing |
| SongManagement.SongManagement.SongDelete | src/hooks/useSongManagement.ts:60-73 | the delete is attempted exactly when the id is listed, and a successful one drops exactly that id |
| SongManagement.SongManagement.AlbumDelete | src/hooks/useSongManagement.ts:75-86 | the delete is asked for with the album's song count, and a successful one drops exactly those songs |
| SongManagement.SongManagement.RealtimeSongUpdate | src/hooks/useSongManagement.ts:88-95 | the song with the patch's id is overlaid and every other song is kept in place |
| UploadForm.AudioFileChosen | src/hooks/useUploadForm.ts:17-22 | no file changes nothing; a chosen file is kept and loading begins |
| UploadForm.MetadataLoaded | src/hooks/useUploadForm.ts:30-41 | the listener touches only the title and the duration |
| UploadForm.MetadataLoadedTitle | src/hooks/useUploadForm.ts:31-38 | a title the handler saw filled is kept and an empty one becomes the file name without its extension; the duration follows the audio element only when it is truthy |
| UploadForm.MetadataLoadedNamesFile | src/hooks/useUploadForm.ts:35-38 | a file "name.ext" on an empty title gets the title "name" |
| UploadForm.TagsParsed | src/hooks/useUploadForm.ts:44-67 | parsing never touches the audio file, key, tempo or loading flag |
| UploadForm.TagsParsedFillsOnlyEmpty | src/hooks/useUploadForm.ts:49-51 | a parsed title, album or duration fills its field exactly when the tag is truthy and the field was empty when the handler ran |
| UploadForm.TagsParsedArt | src/hooks/useUploadForm.ts:53-62 | an embedded picture becomes the preview and the art file; without one, or when parsing fails, the art stays |
| UploadForm.AlbumArtChosen | src/hooks/useUploadForm.ts:76-83 | no file changes nothing; a chosen file becomes the art with its object URL as preview |
| UploadForm.FormData | src/hooks/useUploadForm.ts:85-95 | the form's title, album and duration with the band as artist and no audio file; the preview or the default art; key 'none' as no key; an empty tempo as none |
| UploadForm.FormDataTempoOfNumber | src/hooks/useUploadForm.ts:94 | a tempo typed as the digits of n is submitted as n |
| UploadForm.FormDataTempoNaN | src/hooks/useUploadForm.ts:94 | a tempo that does not start like a number is submitted as NaN rather than left out |
| UploadForm.FormDataHasArt | src/hooks/useUploadForm.ts:90 | the submitted album art is never empty |
| UploadForm.UploadOfUntaggedFile | src/hooks/useUploadForm.ts:17-74 | an untagged "name.ext" chosen on an empty form ends titled "name", with the file kept and loading over |

## Left out

- Supabase queries, storage uploads and realtime channels are I/O. Their results are parameters, and table rows are values.
- Timers, `setTimeout`/`setInterval` scheduling, promises and concurrency are not modelled. An interval tick is a method call.
- The polling loop of `useAudioAnalysis.ts` and the 5 s album timer of `uploadManager.ts` are not modelled, because they are timer-driven orchestration.
- Toasts and console logging are not modelled. Neither are `confirm`/`alert` dialogs: a dialog's answer is a parameter.
- Web Audio decoding, the DFT loops, Hann tapers, `simpleFFT` and frequency-to-bin rounding are floating-point transcendental arithmetic. Spectra, bin indices and semitone offsets are inputs.
- `Math.sqrt`, `Math.pow` and `Math.log2` are parameters that carry only the facts the proofs need, such as non-negativity and the square-root equation.
- Meyda, Essentia.js and music-metadata are foreign libraries. Their outputs (bpm, key and scale, centroid, rms, chroma, tags) are inputs.
- IEEE-754 rounding, and NaN and Infinity beyond the explicit cases below, are not modelled.
- The random tempo jitter of `public/audioWorker.js` is an arbitrary real parameter, and the tempo clamp is proved for every value of it.
- The draw `Math.random() > 0.7` of the key override in `public/audioWorker.js` is a boolean parameter, `overrideDraw`; the override itself is modelled as written.
- RealtimeAgent.Realtime.SubscribeToTable: the random part of the subscription id is a parameter.
- Ordering.SortBy: the engine's sort algorithm is not modelled. A stable insertion sort stands in for it, and only its outcome (sorted, a permutation) is claimed.
- Strings.Lower: lower-cases ASCII letters only, because Unicode case mapping is not modelled.
- Strings.TextLess: compares characters, not UTF-16 code units.
- SetlistEditor: the visual drag state (handleDragStart, handleDragEnd, handleDragOver, handleDragLeave) is not modelled, because it only styles the list.
- SetlistEditor.Drop: the position writes are returned as a list. A write that fails partway stops the source's loop midway; that failure is I/O and is not modelled.
- SetlistAgent: the `created_at` ordering of getAllSetlists is a database ordering and is not modelled. The `handle*` message wrappers only forward to the modelled operations.
- MeydaProcessor: `processAudioFile` of the hook is decoding and scheduling around the modelled analysis, and is not modelled.
- MetadataAgent: handleExtractMetadata, handleUpdateMetadata and updateSongMetadata are I/O around the modelled fallbacks, and are not modelled.
- MetadataAgent.BatchExtract: the progress is stated uncapped. The report's `Math.min(99, …)` cap is not part of the contract.
- AgentSetlistManagement: loadSetlists, loadSetlist, createSetlist and the realtime subscription effects are I/O, and are not modelled.
- EditSongModal.SavedTempo: a tempo that parseInt reads as NaN is saved as no tempo, which is what the database stores for it.
- EditSongModal.TempoText: a tempo is written as its integer part, not with JavaScript's full number-to-string conversion.
- MusicPlayer: durations of Infinity (live streams) are not modelled. Only NaN and finite durations are.
- LagScan.LagScores: a lag at or beyond the signal length scores 0, rather than the source's NaN from dividing by zero. The source's lags never reach that length.
- BaseAgent.Agent.AllTasks: the contents are stated, but not the Map's insertion order.
- ErrorWatcherAgent.ErrorWatcher.AllErrors: the contents are stated, but not the Map's insertion order.
- ErrorWatcherAgent.ErrorWatcher.HandleErrorResolve: error records are values in the map. The source flips `resolved` on the stored object itself (src/agents/ErrorWatcherAgent.ts:113-120), so listeners and task results holding that object see the change too; that sharing is not modelled.
- ErrorWatcherAgent.ErrorWatcher.HandleErrorRetry: the same; the retry count is raised on the shared record object (src/agents/ErrorWatcherAgent.ts:156-171), and only the map's new value is modelled.
- BaseAgent.Agent.UpdateTask: tasks are values. The source changes the stored task object in place (src/agents/BaseAgent.ts:80-92), so a task returned earlier by createTask or getTask also changes; the model states only the map's new value.
- SimpleAudioProcessor.DetectTempoFast: requires a sample rate of at least 10. Below that, the source's window loop never advances.
- TempoAnalysis.DetectTempoFromBeats: requires a sample rate of at least 40, for the same reason.
- AudioWorker.AutocorrelationTempo: requires a sample rate of at least 4. Below that, lag 0 gives Infinity and the halving loop never ends.
- TempoAnalysis.FallbackTempoDetection: requires a sample rate of at least 4, for the same reason.
- PlaylistCreator.CompatibleKeys: the table lookup through the object prototype is not modelled. A key naming an inherited property such as `constructor` is treated as having no table row.
- SongManagement.ReanalyzeStarts: a predicate without a contract of its own. Its behaviour is stated by the lemmas beside it.
- Singleton wiring (AgentManager, useAgents, AgentProvider), type-only files and presentational components are not modelled: they have no logic beyond the modelled rules.

## Findings

| source | as written | input that shows it | evidently intended | confidence | as-written member | corrected member |
|---|---|---|---|---|---|---|
| src/hooks/audioAnalysis/essentiaProcessor.ts:193-198 | the guard tests `bpm > 0` on the unrounded value, then the doubling loop runs on `Math.round(bpm)` | an extractor bpm of 0.25 rounds to 0, and `while (bpm < 70) bpm *= 2` never ends | the guard should require the rounded value to be at least 1 | not executed | EssentiaProcessor.GuardAsWrittenAdmitsEndlessLoop | EssentiaProcessor.FoldEssentiaBpm |
| src/agents/MetadataAgent.ts:186-189 | `metadata.title \|\| song.title \|\| 'Unknown Title'` is applied to metadata that has already been defaulted | a song titled "Encore" whose file has no title tag is renamed "Unknown Title" | per field: the tag value, then the stored value, then the default | not executed | MetadataAgent.BatchAsWrittenDropsExistingTitle | MetadataAgent.BatchUpdate |
| src/agents/LyricsAgent.ts:169-171 | has_lyrics looks at the given text and at the new and stored file URLs, but not at the stored text | an update with no text and no file, on a song whose lyrics are stored text only, clears has_lyrics but keeps the text (`UpdateAsWrittenClearsFlagOfStoredText`) | the flag should also count the text the row keeps | not executed | LyricsAgent.Lyrics.HandleUpdateLyrics | LyricsAgent.UpdateHasLyrics |
| src/components/AddSongToSetlistModal.tsx:148 | every existing set's option shows the size of the currently chosen set | with set 1 chosen in a setlist of two songs in set 1 and one in set 2, the option "Set 2" reads "(2 songs)" | each option should count the songs in its own set | not executed | AddSongToSetlist.OptionCountAsWrittenMiscounts | AddSongToSetlist.OptionCount |
| src/components/Metronome.tsx:39-57 | the interval callback calls the playClick of the render that started it, and that playClick reads that render's beat | started at beat 0, four ticks play 1200 Hz four times | the click should follow the beat it moves to, accenting once per bar | not executed | Metronome.ClicksAsWrittenNeverVary | Metronome.OneAccentPerBar |
