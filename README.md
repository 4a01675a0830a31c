# trans-voice-trainer: a Dafny model of the analysis and storage core

This project models the logic of trans-voice-trainer, a browser voice-training
app written in TypeScript. The app records speech, splits it into words,
estimates the pitch (F0) and the first three formants (F1 to F3) of each word,
and compares them with masculine and feminine averages. It keeps a short
history of analysed recordings and a list of saved favourites, persists both
as JSON, and can download a recording as a WAV file.

The model covers the following parts, one Dafny module each:

- **RingBuffers** (`circular_buffer.dfy`): the overwrite-oldest
  `CircularBuffer` class. It keeps an array of slots, `head`, `tail` and
  `currentSize`. Every method is proved against the ghost logical contents.
- **SampleAccumulator** (`sample_accumulator.dfy`): `mergeBuffers`, which
  concatenates sample chunks into one array.
- **Dsp** (`dsp.dfy`): the formant estimator. It covers segment extraction,
  the pitch gate, windowing and pre-emphasis, the LPC order check and root
  selection. The numeric kernels (pitch detector, LPC, root finder, `cos`,
  `atan2`) are function-typed parameters.
- **Resampling** and **Recorder**: the `Resampler` class and the audio-worklet
  `RecorderProcessor`. The processor accumulates chunks, converts them and
  gates formants on silence.
- **Analysis**: `AudioAnalyzer.computeAllFormants`.
- **History**, **AnalyzedResultsStore**, **SpectrogramResultsStore**,
  **PlaybackDataStore**: the capped result histories. They keep the last five
  results, and one of the stores drops duplicate saves.
- **Persistence**: the Float32Array `replacer`/`reviver` pair and the
  `serialize`/`deserialize` closures.
- **WavEncoder**: `createWavBlob`, a 44-byte RIFF/WAVE header followed by
  16-bit PCM samples, and the download file name.
- **FormantColors**, **ResultSelection**, **SpectrogramView**,
  **AlphaSlider**: the decision logic of the colouring, result picker,
  spectrogram range and alpha slider in the UI.
- **Text**, **Seqs** and **Wrappers**: shared string splitting and joining,
  filtering and sorting, and the `Option` and `Outcome` (returned or threw)
  types.

Samples and other JavaScript numbers are `real`. Where the source truncates or
wraps, the model says so explicitly: `Math.floor`, `Math.round`, the DataView
conversion to 16 and 32 bits modulo 2^16 and 2^32.

## Model

| member | source | states |
|---|---|---|
| RingBuffers.Create | app/lib/CircularBuffer.ts:19-26 | Throws exactly when the capacity is not a positive integer; otherwise returns a fresh, valid, empty buffer of that capacity |
| RingBuffers.CircularBuffer.constructor | app/lib/CircularBuffer.ts:19-26 | The new buffer is valid and empty, has the given capacity and holds no values |
| RingBuffers.CircularBuffer.PushInner | app/lib/CircularBuffer.ts:34-53 | Keeps the buffer valid and returns true. The contents become `Pushed(old, value)`. Below capacity the size grows by one and the head stays; when full the size stays at capacity and the head advances by one slot |
| RingBuffers.CircularBuffer.Push | app/lib/CircularBuffer.ts:55-57 | Pushes each item in turn: the contents become `PushAll(old, items)` |
| RingBuffers.Pushed | app/lib/CircularBuffer.ts:34-53 | One push keeps the earlier elements below capacity. When full it shifts every element down by one. The pushed value is always last |
| RingBuffers.PushedIsLastN | app/lib/CircularBuffer.ts:34-53 | One push keeps exactly the last `cap` of the old contents followed by the value |
| RingBuffers.PushAllKeepsLast | app/lib/CircularBuffer.ts:55-57 | Pushing any run of values keeps exactly the last `cap` of everything pushed, in push order |
| RingBuffers.PushAllFromEmpty | app/lib/CircularBuffer.ts:34-56 | From empty, the buffer holds the last `min(n, cap)` values pushed |
| RingBuffers.CapacityThreeScenario | app/lib/CircularBuffer.ts:34-56 | Capacity 3, pushes 1..5: the buffer holds [3, 4, 5] |
| RingBuffers.LastNOfLastN | app/lib/CircularBuffer.ts:34-56 | Truncating to the last n before appending more makes no difference to the last n afterwards |
| RingBuffers.PushKeepsSlots | app/lib/CircularBuffer.ts:36-50 | After writing the tail slot, logical element i sits in slot `(head' + i) % maxSize` of the new layout |
| RingBuffers.WrapIsMod | app/lib/CircularBuffer.ts:42 | The single-subtraction wrap equals `k % n` for `k < 2n` |
| RingBuffers.CircularBuffer.Get | app/lib/CircularBuffer.ts:67-80 | Undefined exactly for a non-integer, negative or out-of-range index; otherwise logical element `index`, read from slot `(head + index) % maxSize`. A function, so it changes nothing |
| RingBuffers.CircularBuffer.Capacity | app/lib/CircularBuffer.ts:96-98 | The number of slots, positive and fixed at construction |
| RingBuffers.CircularBuffer.Size | app/lib/CircularBuffer.ts:88-90 | The number of logical elements, never more than the capacity |
| RingBuffers.CircularBuffer.IsFull | app/lib/CircularBuffer.ts:104-106 | True exactly when the size equals the capacity |
| RingBuffers.CircularBuffer.IsEmpty | app/lib/CircularBuffer.ts:112-114 | True exactly when there are no logical elements |
| RingBuffers.CircularBuffer.ToArray | app/lib/CircularBuffer.ts:123-135 | The logical contents, oldest first, with exactly `size()` elements |
| RingBuffers.CircularBuffer.Clear | app/lib/CircularBuffer.ts:142-148 | Head, tail and size become 0, every slot is emptied, the capacity is unchanged and the buffer stays valid |
| RingBuffers.CircularBuffer.Map | app/lib/CircularBuffer.ts:184-192 | One result per logical element: entry i is `f(element i, i)` |
| RingBuffers.CircularBuffer.Filter | app/lib/CircularBuffer.ts:201-211 | The elements that pass the test with their logical index, in order (`KeepIf`) |
| RingBuffers.KeepIfSound | app/lib/CircularBuffer.ts:201-211 | Every kept element is an element that passed the test at its index |
| RingBuffers.KeepIfComplete | app/lib/CircularBuffer.ts:201-211 | Every element that passes the test at its index is kept |
| RingBuffers.CircularBuffer.ReduceFrom | app/lib/CircularBuffer.ts:223-244 | With a seed: the left fold from the seed over all elements, with logical indices |
| RingBuffers.CircularBuffer.Reduce | app/lib/CircularBuffer.ts:223-244 | Without a seed: throws exactly on an empty buffer; otherwise folds from element 0 over elements 1..size-1 |
| RingBuffers.FoldRangeSplit | app/lib/CircularBuffer.ts:238-241 | Folding over a range equals folding its two halves in turn, so seeding with element 0 and starting at 1 is one fold |
| RingBuffers.CircularBuffer.Any | app/lib/CircularBuffer.ts:254-263 | True exactly when some element passes the test at its index |
| RingBuffers.CircularBuffer.Every | app/lib/CircularBuffer.ts:272-281 | True exactly when every element passes the test at its index |
| RingBuffers.CircularBuffer.Find | app/lib/CircularBuffer.ts:290-299 | Undefined exactly when no element passes; otherwise the first element that passes |
| RingBuffers.CircularBuffer.FindIndex | app/lib/CircularBuffer.ts:308-317 | -1 exactly when no element passes; otherwise the index of the first element that passes |
| SampleAccumulator.MergeBuffers | app/lib/microphone/EnableUserMicrophone.ts:51-64 | The result is fresh, its length is the sum of the input lengths and its contents are the inputs concatenated in order. The inputs are not modified |
| SampleAccumulator.CopyChunk | app/lib/microphone/EnableUserMicrophone.ts:59-62 | Buffer k lands at the offset equal to the total length of buffers 0..k-1, after the ones already copied |
| SampleAccumulator.SetAt | app/lib/microphone/EnableUserMicrophone.ts:60 | `set(src, offset)` replaces exactly the destination from `offset` for the length of `src` by `src` and keeps the rest |
| SampleAccumulator.ConcatAt | app/lib/microphone/EnableUserMicrophone.ts:58-62 | Element j of chunk k sits at position `TotalLength(chunks[..k]) + j` of the concatenation |
| SampleAccumulator.ConcatLength | app/lib/microphone/EnableUserMicrophone.ts:52-57 | The concatenation is as long as the sum of the chunk lengths |
| SampleAccumulator.ConcatAppend | app/lib/microphone/EnableUserMicrophone.ts:58-62 | Concatenation distributes over appending chunk lists |
| SampleAccumulator.MergeNothing | app/lib/microphone/EnableUserMicrophone.ts:53-57 | No chunks give an empty result of length 0 |
| Dsp.Round | app/lib/DSP.ts:215-217 | `Math.round`: the integer within half of x, halves rounded up |
| Dsp.RoundMonotone | app/lib/DSP.ts:215-217 | Rounding preserves order |
| Dsp.StartIndex | app/lib/DSP.ts:89 | `max(0, floor(start * sr))` |
| Dsp.EndIndex | app/lib/DSP.ts:90 | `min(length, floor(end * sr))` |
| Dsp.ExtractAudioSegment | app/lib/DSP.ts:84-99 | None exactly when start >= end or the length is below 10; otherwise the slice `samples[start..end]` of at least 10 samples |
| Dsp.SegmentInsideWindow | app/lib/DSP.ts:89-98 | Sample k of the extracted segment is recording sample `start + k`, which lies inside the segment's time window |
| Dsp.EstimateF0 | app/lib/DSP.ts:107-127 | 0 or a pitch within [75, 500]; a non-zero result is exactly what the detector returned |
| Dsp.GateF0 | app/lib/DSP.ts:107-127 | 0 when the detector throws, the pitch is missing, or it lies outside [75, 500]; otherwise the detected pitch |
| Dsp.Hamming | app/lib/DSP.ts:32-34 | With a cosine bounded by 1, every window weight lies in [0.08, 1] |
| Dsp.Windowed | app/lib/DSP.ts:137-139 | Same length; element i is `s[i] * hamming(i, n)` |
| Dsp.PreEmphasis | app/lib/DSP.ts:141-147 | Same length; `out[0] = w[0]` and `out[i] = w[i] - 0.97 * w[i-1]` |
| Dsp.DeEmphasisInvertsPreEmphasis | app/lib/DSP.ts:141-147 | Pre-emphasis loses no information: the de-emphasis filter recovers its input exactly |
| Dsp.ApplyWindow | app/lib/DSP.ts:135-139 | The first loop fills a fresh array with `Windowed` of the input |
| Dsp.ApplyPreEmphasis | app/lib/DSP.ts:141-147 | The second loop fills a fresh array with `PreEmphasis` of the windowed array |
| Dsp.PreprocessForLPC | app/lib/DSP.ts:134-148 | A fresh array equal to `PreEmphasis(Windowed(input))` |
| Dsp.LpcOrder | app/lib/DSP.ts:158 | `floor(2 + sampleRate / 1000)` |
| Dsp.ComputeLPC | app/lib/DSP.ts:156-190 | None when the segment is not longer than the order or the kernel throws; otherwise the kernel's coefficients without the first |
| Dsp.Polynomial | app/lib/DSP.ts:203-205 | The coefficients reversed, then a leading 1 |
| Dsp.Reverse | app/lib/DSP.ts:203 | Element i is `s[n-1-i]` |
| Dsp.PairRoots | app/lib/DSP.ts:206 | Pairs real and imaginary parts index by index; a part missing from the shorter list is 0 |
| Dsp.Frequencies | app/lib/DSP.ts:210 | Each candidate root mapped to its frequency in Hz |
| Dsp.ExtractFormantsFromLPC | app/lib/DSP.ts:198-227 | [0, 0, 0] for missing or empty coefficients and when root finding throws |
| Dsp.FormantFrequencies | app/lib/DSP.ts:208-213 | The candidate frequencies are ascending, strictly within (90, 4000), and hold exactly the in-band candidate frequencies with every repeat kept |
| Dsp.FirstThree | app/lib/DSP.ts:215-217 | F1, F2, F3 are the nearest integers to the first three frequencies, and 0 for each one that is missing |
| Dsp.FormantFrequenciesSound | app/lib/DSP.ts:208-213 | Each surviving frequency comes from a root with imaginary part >= 0.001 inside the unit circle |
| Dsp.FormantFrequenciesComplete | app/lib/DSP.ts:208-213 | Every such root whose frequency is in band contributes that frequency |
| Dsp.FilterOfAscending | app/lib/DSP.ts:211-213 | Filtering an ascending list leaves it ascending |
| Dsp.FirstThreeSpec | app/lib/DSP.ts:215-217 | F1..F3 are each 0 or within [90, 4000]; a 0 is followed only by 0s; the non-zero ones are ascending; F1 is 0 exactly when nothing survives |
| Dsp.ExtractFormantsSpec | app/lib/DSP.ts:198-227 | When root finding succeeds, F1, F2 and F3 are the first, second and third of any ascending arrangement of the in-band candidate frequencies, rounded, 0 where there are fewer; so they are ordered and in range as above, and F1 is at most the rounded frequency of every in-band candidate root |
| Dsp.FormantsOf | app/lib/DSP.ts:229-245 | The rounded F0 is 0 or within [75, 500], and a run not longer than the LPC order gets F1 = F2 = F3 = 0 |
| Dsp.ComputeFormantsBase | app/lib/DSP.ts:229-245 | The record of rounded F0 and the three formants (`FormantsOf`) of the samples |
| Dsp.WordFormants | app/lib/DSP.ts:254-265 | Keeps the segment's word; an invalid segment gives all-zero formants |
| Dsp.ComputeFormants | app/lib/DSP.ts:249-266 | Equals `WordFormants` on the recording's samples |
| Resampling.Resampler.constructor | app/lib/Resampler.ts:11-19 | Both rates stored unchanged and no converter yet |
| Resampling.Resampler.Init | app/lib/Resampler.ts:21-25 | Creates a converter only when the output rate is below the input rate, built with the module-wide output rate; otherwise nothing changes |
| Resampling.Resampler.Resample | app/lib/Resampler.ts:27-38 | Without a converter, the same samples tagged with the input rate; with one, the converted samples tagged with this object's output rate |
| Analysis.AudioAnalyzer.ComputeAllFormants | app/lib/AudioAnalyzer.ts:23-30 | One result per segment of the merged recording, in segment order; each extractor call gets the whole merged array and the context's sample rate |
| Analysis.EmptyChunkIrrelevant | app/lib/AudioAnalyzer.ts:24 | An empty recorded chunk does not change the result |
| Analysis.WithFormantEstimator | app/lib/AudioAnalyzer.ts:27-29 | With the DSP extractor, entry i keeps segment i's word, and an invalid segment gives all-zero formants |
| Recorder.RecorderProcessor.constructor | app/lib/audio-worklet/recorder-processor.ts:31-40 | Quiet count 0, no stored chunks, stored length 0, no converter |
| Recorder.RecorderProcessor.Init | app/lib/audio-worklet/recorder-processor.ts:42-50 | When the converter resolves it is stored, and nothing else changes |
| Recorder.RecorderProcessor.Resample | app/lib/audio-worklet/recorder-processor.ts:81-103 | Pass-through at the worklet rate when it is not above the output rate. Otherwise the chunk is stored and nothing is returned until the stored length reaches the threshold. Then the merged chunks are converted and the store is emptied; the stored length always equals the total of the stored chunks. Result and store are `ResampleStep` of the old state |
| Recorder.RecorderProcessor.GetFormants | app/lib/audio-worklet/recorder-processor.ts:105-118 | Null for null input. An empty chunk throws. Otherwise the quiet count is updated from the energy, and the result is null when the count exceeds 5, else the formants. Result and count are `FormantsStep` of the old count |
| Recorder.RecorderProcessor.CreateMessage | app/lib/audio-worklet/recorder-processor.ts:58-79 | Throws with no input, no message with no channels, formants null before the converter exists, and the source samples always carried. With a converter, the chunk goes through `resample` then `getFormants`: the message carries their formants, a throw from `getFormants` propagates, and the store and quiet count become what those two leave |
| Recorder.NextQuiet | app/lib/audio-worklet/recorder-processor.ts:112 | The count grows by one exactly when the energy is at most 0.01 and resets to 0 exactly otherwise |
| Recorder.Energy | app/lib/audio-worklet/recorder-processor.ts:111 | The unseeded reduce equals the sum of squares with the first term unsquared |
| Recorder.NegativeFirstSampleCanMaskEnergy | app/lib/audio-worklet/recorder-processor.ts:111-112 | [-1.0, 0.5] counts as quiet though its sum of squares is above the threshold |
| Recorder.QuietCountsTrailingRun | app/lib/audio-worklet/recorder-processor.ts:112 | After k quiet chunks in a row the count is at least k |
| Recorder.GateClosesAfterSixQuietChunks | app/lib/audio-worklet/recorder-processor.ts:112-115 | Six quiet chunks in a row close the formant gate |
| Recorder.GateReopensAfterLoudChunk | app/lib/audio-worklet/recorder-processor.ts:112 | One loud chunk resets the count to 0 |
| History.AppendCapped | app/stores/AnalyzedResultsStore.ts:33-49 | Appends the entry last; when the result would exceed 5, exactly the oldest element is dropped, otherwise all are kept in order |
| History.AppendCappedBounded | app/stores/AnalyzedResultsStore.ts:36-41 | A list of at most 5 stays at most 5 after an add |
| History.AppendCappedIsRingPush | app/stores/AnalyzedResultsStore.ts:33-49 | The capped append is a push into a 5-slot ring buffer: the last five of old list plus entry |
| History.AppendAllKeepsLastFive | app/stores/AnalyzedResultsStore.ts:33-49 | Any run of adds keeps exactly the last five entries, in order |
| AnalyzedResultsStore.State.SetCurrentAnalyzedResult | app/stores/AnalyzedResultsStore.ts:30 | Sets the current result; both lists are unchanged |
| AnalyzedResultsStore.State.AddAnalyzedResult | app/stores/AnalyzedResultsStore.ts:33-49 | Capped append to the history; the other fields are unchanged |
| AnalyzedResultsStore.State.RemoveSavedResult | app/stores/AnalyzedResultsStore.ts:50-57 | Removes the saved entries with that id; the other fields are unchanged |
| AnalyzedResultsStore.State.RemoveAnalyzedResult | app/stores/AnalyzedResultsStore.ts:58-64 | Removes the history entries with that id; the other fields are unchanged |
| AnalyzedResultsStore.WithoutId | app/stores/AnalyzedResultsStore.ts:51 | Keeps exactly the entries whose id differs |
| AnalyzedResultsStore.WithoutIdExact | app/stores/AnalyzedResultsStore.ts:50-64 | Membership after removal is membership with a different id; removal distributes over concatenation, so order is kept; no match leaves the list unchanged |
| AnalyzedResultsStore.State.SaveResult | app/stores/AnalyzedResultsStore.ts:65-85 | An already saved entry changes nothing; otherwise a capped append to the saved list. The entry is saved afterwards and the other fields are unchanged |
| AnalyzedResultsStore.SaveResultIdempotent | app/stores/AnalyzedResultsStore.ts:65-68 | Saving twice equals saving once |
| AnalyzedResultsStore.SaveResultKeepsDistinct | app/stores/AnalyzedResultsStore.ts:65-85 | Saving never introduces a duplicate favourite |
| SpectrogramResultsStore.State.AddAnalyzedResult | app/stores/spectrogram/AnalyzedResultsStore.ts:25-41 | Capped append to the history; the saved list is unchanged |
| SpectrogramResultsStore.State.SaveResult | app/stores/spectrogram/AnalyzedResultsStore.ts:42-58 | Capped append to the saved list with no duplicate check; the history is unchanged |
| SpectrogramResultsStore.SaveTwiceStoresTwice | app/stores/spectrogram/AnalyzedResultsStore.ts:42-43 | Saving the same entry twice stores it twice |
| SpectrogramResultsStore.SavesKeepLastFive | app/stores/spectrogram/AnalyzedResultsStore.ts:45-57 | From the initial state, the saved list holds the last five saves, duplicates included |
| PlaybackDataStore.State.AddAnalyzedResult | app/stores/spectrogram/PlaybackDataStore.ts:23-39 | Capped append of the entry |
| PlaybackDataStore.HistoryIsLastFive | app/stores/spectrogram/PlaybackDataStore.ts:22-39 | From the empty start the history never exceeds five and holds the last five added, in order |
| PlaybackDataStore.AddAllIsAppendAll | app/stores/spectrogram/PlaybackDataStore.ts:23-39 | A run of adds is the shared capped-history update |
| Persistence.Tagged | app/stores/IndexedDbStore.ts:70-73 | An object with exactly the keys `__type` = 'Float32Array' and `data`, the elements as numbers in order |
| Persistence.Replacer | app/stores/IndexedDbStore.ts:68-76 | A Float32Array becomes its tagged object; any other value is unchanged (app/stores/spectrogram/use-store.ts:21-30 is identical) |
| Persistence.Reviver | app/stores/IndexedDbStore.ts:78-83 | A tagged object with array `data` becomes a Float32Array of its elements; anything else, null included, is unchanged (app/stores/spectrogram/use-store.ts:32-38 is identical) |
| Persistence.ReviveReplaced | app/stores/IndexedDbStore.ts:68-83 | Reviving a replaced Float32Array gives back the same elements |
| Persistence.RoundTripTyped | app/stores/spectrogram/use-store.ts:21-38 | The stringify-then-parse tree walk restores a Float32Array |
| Persistence.RoundTrip | app/stores/IndexedDbStore.ts:100-118 | Reviving the stringified tree restores the whole state, when it holds no `undefined` and no object already looked like a tagged one |
| Persistence.UndefinedMemberIsLost | app/stores/IndexedDbStore.ts:100-118 | A member holding `undefined` is dropped: `{state: {x: undefined}}` comes back as `{state: {}}` |
| Persistence.DeepRevive | app/stores/IndexedDbStore.ts:114 | The bottom-up revive leaves a tree with no tagged-looking object unchanged |
| Persistence.DeepReplace | app/stores/IndexedDbStore.ts:102 | The stringified tree holds no typed arrays, and no `undefined` below the top level: members holding it are omitted, elements become null |
| Persistence.Serialize | app/stores/IndexedDbStore.ts:100-107 | The output holds no typed arrays; a stored object stays an object with no `undefined` and keeps a defined `state` |
| Persistence.Deserialize | app/stores/IndexedDbStore.ts:109-123 | Throws on an empty string; a returned value is an object with a `state` key and is the revived parse (app/stores/spectrogram/use-store.ts:55-71 is identical) |
| Persistence.SerializeDeserialize | app/stores/IndexedDbStore.ts:100-118 | Deserializing a serialized state returns it intact |
| Persistence.DeserializeRejectsStateless | app/stores/spectrogram/use-store.ts:60-70 | A parsed value that is not an object with `state` is rejected |
| WavEncoder.CreateWavBlob | app/ui/spectrogram/controls/DownloadResult.tsx:76-114 | A fresh buffer equal to `WavFile`: the 44-byte header, then every sample in order |
| WavEncoder.WavFile | app/ui/spectrogram/controls/DownloadResult.tsx:83-86 | The file is 44 + 2n bytes |
| WavEncoder.HeaderFields | app/ui/spectrogram/controls/DownloadResult.tsx:89-104 | `RIFF` at 0, size 36 + 2n at 4, `WAVE` at 8, `fmt ` at 12, chunk size 16, PCM 1, one channel, the rate, byte rate rate*2, block align 2, 16 bits, `data` at 36, data size 2n at 40 |
| WavEncoder.RiffHeaderFields | app/ui/spectrogram/controls/DownloadResult.tsx:89-91 | The RIFF chunk reads back as `RIFF`, 36 + 2n, `WAVE` |
| WavEncoder.FmtChunkFields | app/ui/spectrogram/controls/DownloadResult.tsx:93-100 | The `fmt ` chunk reads back field by field as written |
| WavEncoder.DataHeaderFields | app/ui/spectrogram/controls/DownloadResult.tsx:103-104 | The data header reads back as `data`, 2n |
| WavEncoder.SampleDecodes | app/ui/spectrogram/controls/DownloadResult.tsx:107-111 | The int16 at `44 + 2i` reads back as sample i clamped, scaled and truncated |
| WavEncoder.SampleBytesAt | app/ui/spectrogram/controls/DownloadResult.tsx:110 | Sample i occupies bytes `2i` and `2i+1` of the sample area |
| WavEncoder.ScaledSampleRange | app/ui/spectrogram/controls/DownloadResult.tsx:108-109 | The stored value stays within int16, keeps the sign and saturates at -32768 and 32767 |
| WavEncoder.Trunc | app/ui/spectrogram/controls/DownloadResult.tsx:97-98 | Truncation toward zero, as the DataView setters convert |
| WavEncoder.LE16RoundTrip | app/ui/spectrogram/controls/DownloadResult.tsx:95-96 | Little-endian 16-bit bytes read back as the value modulo 2^16, and as the value itself for int16 |
| WavEncoder.LE32RoundTrip | app/ui/spectrogram/controls/DownloadResult.tsx:90 | Little-endian 32-bit bytes read back as the value modulo 2^32 |
| WavEncoder.Ascii | app/ui/spectrogram/controls/DownloadResult.tsx:162-166 | One byte per character, in order |
| WavEncoder.WriteString | app/ui/spectrogram/controls/DownloadResult.tsx:162-166 | Writes the character bytes at the offset; the bytes before and after are kept |
| WavEncoder.SetUint16 | app/ui/spectrogram/controls/DownloadResult.tsx:95 | Writes the two little-endian bytes at the offset; the bytes before and after are kept |
| WavEncoder.SetUint32 | app/ui/spectrogram/controls/DownloadResult.tsx:90 | Writes the four little-endian bytes at the offset; the bytes before and after are kept |
| WavEncoder.WriteRiffHeader | app/ui/spectrogram/controls/DownloadResult.tsx:89-91 | Offsets 0-11 become the RIFF chunk header |
| WavEncoder.WriteFmtChunk | app/ui/spectrogram/controls/DownloadResult.tsx:93-100 | Offsets 12-35 become the `fmt ` chunk; 0-11 are kept |
| WavEncoder.WriteFmtFormat | app/ui/spectrogram/controls/DownloadResult.tsx:93-96 | Offsets 12-23: tag, size 16, PCM, one channel |
| WavEncoder.WriteFmtRates | app/ui/spectrogram/controls/DownloadResult.tsx:97-100 | Offsets 24-35: rate, byte rate, block align, bits per sample |
| WavEncoder.WriteDataHeader | app/ui/spectrogram/controls/DownloadResult.tsx:103-104 | Offsets 36-43 become the data header; 0-35 are kept |
| WavEncoder.WriteHeader | app/ui/spectrogram/controls/DownloadResult.tsx:89-104 | The first 44 bytes become the header |
| WavEncoder.WriteSample | app/ui/spectrogram/controls/DownloadResult.tsx:107-111 | One loop pass: sample i is appended after the samples before it |
| WavEncoder.FileNameWords | app/ui/spectrogram/controls/DownloadResult.tsx:35-38 | The first five words, or all of them when fewer |
| WavEncoder.WavFileName | app/ui/spectrogram/controls/DownloadResult.tsx:35-40 | Starts with the kept words joined by `_`, followed by the timestamp with every `:` replaced by `.` (so no `:` remains), and ends in `.wav` |
| WavEncoder.WavFileNameParts | app/ui/spectrogram/controls/DownloadResult.tsx:35-40 | With no `_` in the words, the word part of the name splits back into the kept words |
| Text.Join | app/ui/spectrogram/controls/SelectAnalyzedResult.tsx:10 | No pieces give `''`, one piece is itself, and more start with the first piece and the separator; `JoinSplit` and `SplitJoin` make it the inverse of `Split` |
| Text.Split | app/ui/spectrogram/controls/SelectAnalyzedResult.tsx:8 | At least one piece, none containing the separator |
| Text.JoinSplit | app/ui/spectrogram/controls/SelectAnalyzedResult.tsx:8-12 | Joining the pieces of a split gives back the text |
| Text.SplitJoin | app/ui/spectrogram/controls/SelectAnalyzedResult.tsx:20-23 | Splitting a join of separator-free pieces gives back the pieces |
| Text.JoinPrefix | app/ui/spectrogram/controls/SelectAnalyzedResult.tsx:10 | Joining the first m pieces gives a prefix of the joined text |
| Text.ReplaceChar | app/ui/spectrogram/controls/DownloadResult.tsx:40 | `replaceAll` on one character: same length, every occurrence replaced, nothing else changed |
| Seqs.Filter | app/ui/spectrogram/controls/SelectAnalyzedResult.tsx:27 | Keeps exactly the elements that pass, and no more than there were |
| Seqs.FilterConcat | app/ui/spectrogram/controls/SelectAnalyzedResult.tsx:26-27 | Filtering distributes over concatenation, so relative order is kept |
| Seqs.FilterKeepsAll | app/lib/DSP.ts:213 | When every element passes, nothing is removed |
| Seqs.FilterSnoc | app/ui/spectrogram/controls/SelectAnalyzedResult.tsx:27 | Appending one element appends it to the result exactly when it passes |
| Seqs.Sort | app/lib/DSP.ts:211 | Ascending, and a permutation of the input |
| Seqs.Insert | app/lib/DSP.ts:211 | Inserting into an ascending list keeps it ascending and adds exactly that element |
| Seqs.SortMembers | app/lib/DSP.ts:211 | The sorted list holds exactly the input's elements |
| Seqs.AscendingUnique | app/lib/DSP.ts:211 | Two ascending lists with the same elements, repeats counted, are equal, so the sort's result is fixed by its input |
| Seqs.FilterCount | app/lib/DSP.ts:213 | A filter keeps every copy of a passing element and no copy of a failing one |
| Seqs.FilterSameElements | app/lib/DSP.ts:211-213 | Filtering a rearrangement gives a rearrangement of the filtered list, so filtering after sorting keeps every in-band copy |
| FormantColors.ColorByRelativeDifference | app/ui/FormantAnalysis.tsx:146-164 | Green at or past the target in the desired direction; otherwise green exactly when the distance is within the larger of 30% of the gap between the two averages and 5% of the value |
| FormantColors.RelativeFeminineUpwardClosed | app/ui/FormantAnalysis.tsx:146-164 | A higher reading never turns a green feminine colour red |
| FormantColors.RelativeMasculineDownwardClosed | app/ui/FormantAnalysis.tsx:146-164 | A lower reading never turns a green masculine colour red |
| FormantColors.Reference | app/ui/FormantAnalysis.tsx:174-175 | Present exactly when the averages and the chosen side are present |
| FormantColors.FormantColor | app/ui/FormantAnalysis.tsx:168-199 | No colour exactly when the reference is missing or 0. Otherwise red exactly when the shortfall (feminine) or excess (masculine) is above 10% of the reference |
| FormantColors.SpectrogramFormantColor | app/ui/spectrogram/FormantAnalysis.tsx:34-51 | No colour exactly when the target is undefined. Feminine is green iff `current >= target` or `>= 0.9 * target`; masculine iff `<= target` or `<= 1.1 * target`; red otherwise |
| FormantColors.SpectrogramThresholds | app/ui/spectrogram/FormantAnalysis.tsx:38-48 | For a positive target, green is a plain 90% (feminine) or 110% (masculine) threshold |
| FormantColors.ColorsAgree | app/ui/spectrogram/FormantAnalysis.tsx:34-51 | The two pages agree whenever the reference is present and non-zero; on a zero reference only the analysis page gives no colour |
| ResultSelection.Shorten | app/ui/spectrogram/controls/SelectAnalyzedResult.tsx:6-13 | Empty text gives empty, and at most `maxLength` words are kept unchanged. Longer text gives a prefix of the text that splits into the first `maxLength` words, followed by `...` |
| ResultSelection.ShortenedPrefix | app/ui/spectrogram/controls/SelectAnalyzedResult.tsx:9-10 | The kept words joined are a prefix of the text and split back into those words |
| ResultSelection.ShortenFirst | app/ui/spectrogram/controls/SelectAnalyzedResult.tsx:6-13 | A shortened text starts like the text, or with `.` when the first kept word is empty |
| ResultSelection.Words | app/ui/spectrogram/controls/SelectAnalyzedResult.tsx:22 | The formant words, in order |
| ResultSelection.Description | app/ui/spectrogram/controls/SelectAnalyzedResult.tsx:22 | When no word holds a space, the description splits back into the words |
| ResultSelection.Describe | app/ui/spectrogram/controls/SelectAnalyzedResult.tsx:20-23 | One item per result, pairing it with its description |
| ResultSelection.FavoriteItems | app/ui/spectrogram/controls/SelectAnalyzedResult.tsx:20-23 | Every saved result, in order, each with its description |
| ResultSelection.HistoryItems | app/ui/spectrogram/controls/SelectAnalyzedResult.tsx:26-31 | Only analysed, unsaved results; every analysed unsaved result is listed |
| ResultSelection.HistoryPartition | app/ui/spectrogram/controls/SelectAnalyzedResult.tsx:20-31 | Every analysed result is listed: as a favourite when saved, in the history otherwise. Nothing saved is in the history |
| ResultSelection.HistoryConcat | app/ui/spectrogram/controls/SelectAnalyzedResult.tsx:26-31 | The history keeps the analysed order |
| ResultSelection.DescribeConcat | app/ui/spectrogram/controls/SelectAnalyzedResult.tsx:28-31 | Describing distributes over concatenation |
| ResultSelection.CurrentItemDisplayName | app/ui/spectrogram/controls/SelectAnalyzedResult.tsx:40-42 | Starred shortened description when saved, plain when not. With nothing chosen, "Select a result" exactly when either list is non-empty, else "No results available" |
| ResultSelection.StarIffSaved | app/ui/spectrogram/controls/SelectAnalyzedResult.tsx:40-41 | The label starts with the star exactly when the current result is saved (for a description not itself starting with it) |
| SpectrogramView.SetUpperFrequency | app/stores/spectrogram/SpectrogramStore.ts:78-86 | Keeps a parsed value in (0, sampleRate/2]; any other input resets to 5000; the result is always positive |
| SpectrogramView.FullHeight | app/stores/spectrogram/SpectrogramStore.ts:72 | The analyser's bin count when present and non-zero, else half the FFT size |
| SpectrogramView.FrequencyResolution | app/stores/spectrogram/SpectrogramStore.ts:73 | Resolution times FFT size is the sample rate |
| SpectrogramView.VisibleFrequencyBins | app/stores/spectrogram/SpectrogramStore.ts:89 | The largest whole number of bins not above the upper frequency |
| SpectrogramView.FloorBounds | app/stores/spectrogram/SpectrogramStore.ts:89 | `floor(x/d) * d <= x < (floor(x/d) + 1) * d` |
| SpectrogramView.Height | app/stores/spectrogram/SpectrogramStore.ts:90 | The smaller of the full height and the visible bins, never above either |
| SpectrogramView.VisibleBinsMonotone | app/stores/spectrogram/SpectrogramStore.ts:89 | A higher upper frequency never shows fewer bins |
| SpectrogramView.AcceptedFitsHalfSpectrum | app/stores/spectrogram/SpectrogramStore.ts:78-90 | An accepted setting needs at most fftSize/2 bins, so without an analyser the height is the visible bin count |
| AlphaSlider.Step | app/ui/spectrogram/controls/MaxValueSlider.tsx:15 | At least 1; `floor(max/100)` from 100 up; 1 below 200 |
| AlphaSlider.SliderValue | app/ui/spectrogram/controls/MaxValueSlider.tsx:36 | Slider value plus max is `ALPHA_MAX` |
| AlphaSlider.NewMax | app/ui/spectrogram/controls/MaxValueSlider.tsx:38-40 | At least 1; `ALPHA_MAX - v` whenever that is at least 1 |
| AlphaSlider.SliderRoundTrip | app/ui/spectrogram/controls/MaxValueSlider.tsx:36-40 | A value v with `ALPHA_MAX - v >= 1` is redisplayed as v; otherwise the slider shows `ALPHA_MAX - 1` |

## Left out

- The `CircularBuffer` iterator and `forEach`: the iteration methods are modelled with their index loops over `get`; generator objects are not.
- The `thisArg` and `buffer` arguments of the `CircularBuffer` callbacks: callbacks receive the value and the logical index only.
- RingBuffers.Create: `typeof maxSize !== 'number'` is not modelled, because the argument is a number by type; NaN and infinities are not modelled either.
- RingBuffers.CircularBuffer.ToArray: the source also skips an element that is itself `undefined` (a pushed `undefined`), while the model's slots hold `Option<T>` values and cannot store an undefined element, so that skip is not modelled.
- Floating point: samples and rates are `real`. Float32 rounding, NaN and infinities are not modelled; `parseInt`'s NaN is `None`, and a NaN slider value is not modelled.
- The numeric kernels (Essentia PitchYin and LPC, durand-kerner root finding, `cos`, `atan2`, libsamplerate converters) are function parameters. The model proves what the code decides around them, not their numerics.
- Essentia loading and caching, the speech segmenter, promises and timers: async results are modelled by the values they resolve to.
- Recorder.RecorderProcessor.GetFormants: it returns the formant record itself, while the worklet posts the promise returned by `computeFormantsBase`.
- Recorder.RecorderProcessor.constructor: requires a positive worklet sample rate, because the threshold divides by it.
- The microphone, Web Audio graph, IndexedDB adapter, zustand plumbing, React rendering, canvas drawing and file downloads are I/O and not modelled.
- Persistence.Serialize: the JSON text layer is not modelled. A document is its value tree, and `JSON.parse` is a parameter that returns a tree or throws.
- Array membership (`includes`) compares by reference in the source; the model compares values, so two equal results count as the same entry.
- AnalyzedResultsStore.State.SaveResult: with value equality, a saved copy that is equal but distinct blocks a save that the reference comparison would let through.
- ResultSelection.CurrentItemDisplayName: the store it reads, app/stores/spectrogram/AnalyzedResultsStore.ts, defines no current result or setter, so the current result is a parameter.
- ResultSelection.Shorten: `maxLength` is a natural number; negative lengths are not modelled.
- AlphaSlider: `ALPHA_MAX` is imported from the module `@/app/stores/HeatmapSettingsStore` (app/ui/spectrogram/controls/MaxValueSlider.tsx:2); that module is not part of this model and its value is unknown here, so it is a parameter.
- SpectrogramView.FrequencyResolution and SpectrogramView.Height require a positive FFT size and sample rate, as the microphone settings always provide.
- WavEncoder.WavFileName: `new Date().toISOString()` is the clock and is a parameter.
- Dsp.Hamming: for a one-sample window the source computes 0/0 (NaN); the model uses angle 0. Such a run is never longer than the LPC order, so its weights never reach the formants.
- Persistence.DeepReplace: besides `undefined`, `JSON.stringify` also omits function-valued members and writes NaN and infinities as `null`; the value tree has no functions and `real` has no NaN, so neither is modelled.
- The four-argument `AudioAnalyzer` used by the analysis page is not part of this model; only app/lib/AudioAnalyzer.ts is.
- Dsp.FirstThreeSpec: the rounded formants lie in [90, 4000], not strictly inside (90, 4000). The band filter runs before `Math.round`, so a frequency just above 90 can round to 90. The model follows the code.
