# Voice engine models

Dafny models of the parts of the edge voice engine whose correctness is hard to see from the code,
with proofs of what they promise:

- **KissFFT** (`Complex`, `Dft`, `Turns`, `Butterflies`, `KissFft`, `KfFactor`, `KissFftr`): the mixed-radix
  FFT in place on an array of complex pairs of reals. The twiddle table is any table that obeys the
  root-of-unity laws of `Dft.ValidTwiddles`.
- **Code2Wav streaming** (`Signals`, `Attention`, `ConvLayers` to `Code2WavRunner`): the growing-state
  reference, the exported fixed-state module and the runner that swaps its buffers, each against the
  whole-utterance decoder, whose samples `Code2WavSamples` gives as formulas.
  A tensor is one channel of reals; projections and softmax are arbitrary functions.
- **WorkerIO** (`WorkerIO`, `WorkerRequests`): requests, reader, cancel and close as interleaved atomic
  steps, and what one request reads and writes over a whole run.
- **SparkTTS worker** (`SparkVocoder`, `SparkRequest`, `SparkCancel`): overlap-chunk vocoding for any token
  arrival, and cancel routing between threads.
- **ASR worker** (`AsrPrefix`, `AsrSession`, `AsrWorker`, `AsrRuns`, `AsrTranscripts`): sessions, lanes and temp
  files. `AsrSession` says what a session does by itself, `AsrWorker` runs many of them and refines it;
  `AsrRuns` and `AsrTranscripts` state what a session hears and answers over whole runs.
- **Graph rewrites** (`Graphs`, `KokoroSplit`, `GateUpFusion`): the meaning of a node list, the
  prefix/suffix split and the gate/up fusion.
- **Arithmetic cores** (`AudioSplitter`, `Half`, `Base64`).

`dafny verify dfyconfig.toml` checks everything. No file includes another; modules import each other.

Where the code does not do what its comments or its purpose suggest, the code is modelled and two things
are proved: exactly when the property holds, and an input or run on which it fails.

- final flag of the transposed convolution: `ConvStreams.FinalFlagMatters`, `FinalFlagNeeded`
- declared size of the attention state: `ExportSteps.StateSizeKept`, `WindowOneGrows`
- forward on the published state list: `Code2WavSlots.ForwardOnPublishedList`, `UnpaddedForward`
- reset after a failed rebind: `Code2WavRunner.ResetFitsIff`, `FirstChunkAfterReset`, `ResetDoesNotRepair`
- waking every waiting request, at end of output and by close(): `WorkerIO.WokenIff`, `WokenUnlessListed`,
  `LateRequestIsNotWoken`, `SecondCloseReturnsEarly`
- progress of the token flush: `SparkRequest.StreamRequest`, `HangingRequest`
- cancelled only when asked: `SparkCancel.CancelledOnlyWhenAsked`, `SilentFailureLooksCancelled`
- "last wins" in handleChunk: `AsrRuns.FileWinsIffNoPcm`, `FileLosesAfterPcm`
- audio that is still there to decode: `AsrRuns.DanglesIff`, `LostAudioIsDecoded`
- outputs of the split graph: `KokoroSplit.OutputSurvives`, `LoseOutput`
- order of the fused graph: `GateUpFusion.FusionRunsIff`, `FuseEarlyReader`
- rising cuts, and an end to cutting: `AudioSplitter.Boundaries`, `RepeatedCut`, `NegativeLengthStalls`,
  `StillCutting`
- ties to even in the float16 conversion: `Half.TiesToEvenIff`, `SmallestTieGoesUp`

## Model

| member | source | states |
|---|---|---|
| `KissFft.KfWork` | native/edgellm_voice_worker/kissfft/kiss_fft.c:235-300 | for every radix chain, stride and offset, Fout[o..o+n] ends up holding every bin of the n-point DFT of the strided input (a plain sum over samples times powers of the root) and no other element changes; all reads and twiddle indices are in bounds |
| `KissFft.KfSubs` | native/edgellm_voice_worker/kissfft/kiss_fft.c:274-288 | after the copy loop or the recursive calls, block q holds the m-point DFT of the input's residue class q modulo p, for all p blocks |
| `KissFft.KfCombine` | native/edgellm_voice_worker/kissfft/kiss_fft.c:290-299 | whichever butterfly the radix selects, every column is replaced by its p-point combination |
| `KissFft.Recombination` | native/edgellm_voice_worker/kissfft/kiss_fft.c:279-299 | combined sub-transforms are the whole transform, bin by bin |
| `Dft.Recombine` | native/edgellm_voice_worker/kissfft/kiss_fft.c:235-300 | decimation in time for any n = p * m: the twiddled combination of the p sub-DFTs equals the long DFT's bin, from the root-of-unity laws alone |
| `Complex.SumDecimate` | native/edgellm_voice_worker/kissfft/kiss_fft.c:279-288 | a sum of p * m terms equals the sum of its p residue classes (the regrouping behind the strided recursion) |
| `Butterflies.KfBfly2` | native/edgellm_voice_worker/kissfft/kiss_fft.c:15-36 | in place, every column becomes its 2-point combination and everything outside the block is untouched |
| `Butterflies.KfBfly3` | native/edgellm_voice_worker/kissfft/kiss_fft.c:86-128 | the same for radix 3 with the half/epi3 arithmetic of the code |
| `Butterflies.KfBfly4` | native/edgellm_voice_worker/kissfft/kiss_fft.c:38-84 | the same for radix 4, forward and inverse sign branch |
| `Butterflies.KfBfly5` | native/edgellm_voice_worker/kissfft/kiss_fft.c:130-189 | the same for radix 5 with the ya/yb arithmetic of the code |
| `Butterflies.Bfly5Cell` | native/edgellm_voice_worker/kissfft/kiss_fft.c:153-188 | one loop body of the radix-5 butterfly leaves exactly the five combinations the ya/yb formulas give, and nothing else changes |
| `Butterflies.KfBflyGeneric` | native/edgellm_voice_worker/kissfft/kiss_fft.c:192-233 | the same for any radix p, through the scratch column |
| `Butterflies.GenericBin` | native/edgellm_voice_worker/kissfft/kiss_fft.c:220-230 | the accumulation with a running, wrapped twiddle index equals the combination with the unreduced exponent; the index never leaves the table |
| `Butterflies.LoadColumn` | native/edgellm_voice_worker/kissfft/kiss_fft.c:212-217 | the scratch buffer is the column's p values |
| `Butterflies.StoreColumn` | native/edgellm_voice_worker/kissfft/kiss_fft.c:219-230 | the column's p places hold the p combinations of the scratch values; every other element is kept |
| `Turns.Radix2` | native/edgellm_voice_worker/kissfft/kiss_fft.c:15-36 | the two combinations of a column are its sum and difference after twiddling |
| `Turns.Radix3` | native/edgellm_voice_worker/kissfft/kiss_fft.c:86-128 | the three combinations in terms of one primitive third root whose real part is -1/2 |
| `Turns.Radix4` | native/edgellm_voice_worker/kissfft/kiss_fft.c:38-84 | the four combinations use +-1 and +-i, with the sign set by the direction |
| `Turns.Radix5` | native/edgellm_voice_worker/kissfft/kiss_fft.c:130-189 | the five combinations in terms of two fifth roots and their conjugates |
| `Turns.HalfTurn` | native/edgellm_voice_worker/kissfft/kiss_fft.c:29-32 | halfway through the table stands -1, derived from the laws |
| `Turns.ThirdTurn` | native/edgellm_voice_worker/kissfft/kiss_fft.c:97-98 | a third of the way stands a primitive cube root, so the code's epi3 constant is right |
| `Turns.QuarterPowers` | native/edgellm_voice_worker/kissfft/kiss_fft.c:61-81 | the table's quarter points are +-i and -1 |
| `Turns.FifthPowers` | native/edgellm_voice_worker/kissfft/kiss_fft.c:142-144 | the fifth roots used as ya and yb and the table's other fifth points are conjugates of each other |
| `KfFactor.KfFactor` | native/edgellm_voice_worker/kissfft/kiss_fft.c:306-328 | for every n in 1..2^31-1 it terminates with a chain p[i] * m[i] = m[i-1] from n down to 1, at most 32 pairs, every radix being 4, a prime, or 1 for n = 1 |
| `KfFactor.NextRadix` | native/edgellm_voice_worker/kissfft/kiss_fft.c:315-323 | the inner loop stops at a divisor of the remaining length that no smaller admissible radix divides |
| `KfFactor.FloorSqrt` | native/edgellm_voice_worker/kissfft/kiss_fft.c:310-311 | the largest integer whose square does not exceed n |
| `KfFactor.KissFftAlloc` | native/edgellm_voice_worker/kissfft/kiss_fft.c:337-370 | a plan of any length satisfies everything kf_work asks of it |
| `KissFftr.KissFftStride` | native/edgellm_voice_worker/kissfft/kiss_fft.c:375-399 | on distinct buffers the output is the DFT of the strided input |
| `KissFftr.KissFftr` | native/edgellm_voice_worker/kissfft/kiss_fftr.c:63-125 | for any even-length real input freqdata[0..N/2] are exactly the first N/2+1 bins of the N-point DFT, DC and Nyquist and the twice-written middle bin included; an inverse plan, with its conjugate tables, is refused and writes nothing |
| `KissFftr.PackedBin` | native/edgellm_voice_worker/kissfft/kiss_fftr.c:76-86 | the half-size transform of the packed samples holds the even-sample and odd-sample transforms as real and imaginary part |
| `KissFftr.FullBins` | native/edgellm_voice_worker/kissfft/kiss_fftr.c:109-124 | bins k and k + N/2 from the two half-transforms |
| `KissFftr.MirrorBin` | native/edgellm_voice_worker/kissfft/kiss_fftr.c:109-124 | bins of a real signal at mirrored frequencies are conjugate |
| `KissFftr.EdgeBins` | native/edgellm_voice_worker/kissfft/kiss_fftr.c:88-106 | DC and Nyquist are sum and difference of the packed bin's parts |
| `KissFftr.MiddleBins` | native/edgellm_voice_worker/kissfft/kiss_fftr.c:109-124 | one pass of the loop yields bin k and bin N/2 - k |
| `ConvLayers.ConvStep` | scripts/qwen3_code2wav_stateful_reference.py:45-63 | convolving history plus chunk gives the chunk's outputs of the whole-signal causal convolution, and the last samples are the next history |
| `ConvStreams.CausalConvStepCorrect` | scripts/qwen3_code2wav_stateful_reference.py:45-63 | one step from the history of any h returns exactly the samples that x adds to the full convolution of h + x, and the history of h + x |
| `ConvStreams.CausalConvStreamChunks` | scripts/qwen3_code2wav_stateful_reference.py:418-431 | for every chunking, empty chunks included, the outputs concatenate to the full convolution and none is empty |
| `TransposedConv.RawSplit` | scripts/qwen3_code2wav_stateful_reference.py:162-215 | raw transposed output of h + x is the sum of h's and of x's shifted by |h| * stride |
| `TransposedConv.Stable` | scripts/qwen3_code2wav_stateful_reference.py:197-207 | raw positions before |h| * stride never change when more input arrives |
| `ConvStreams.EmitStepCorrect` | scripts/qwen3_code2wav_stateful_reference.py:162-215 | one emission step continues the trimmed one-shot output exactly up to the settled end (or to the very end on the final step) and leaves the accumulator of h + x |
| `ConvStreams.TransposedConvStreamEmitChunks` | scripts/qwen3_code2wav_stateful_reference.py:434-450 | if the last chunk is non-empty the emitted samples are the trimmed one-shot transposed convolution; otherwise the final flush never happens and exactly the settled samples come out |
| `ConvStreams.FinalFlagMatters` | scripts/qwen3_code2wav_stateful_reference.py:199-207 | the final flag changes nothing if and only if right_pad = kernel - stride, or nothing remains to trim |
| `ConvStreams.FinalFlagNeeded` | scripts/qwen3_code2wav_stateful_reference.py:199-207 | kernel 2, stride 1, no trim, one input sample: without the final step only the first of the two output samples comes out |
| `Attention.CachedWindow` | scripts/qwen3_code2wav_stateful_reference.py:255-308 | a query over the cached last W-1 entries plus the chunk sees exactly the entries the full causal window sees |
| `Attention.AttentionStepCorrect` | scripts/qwen3_code2wav_stateful_reference.py:255-308 | one step gives exactly the positions that x adds to full sliding-window attention over h + x, and the cache of h + x |
| `Attention.FullAttnWindow` | scripts/qwen3_code2wav_stateful_reference.py:280-296 | on a whole signal position t attends to exactly positions max(0, t - window + 1) .. t, its own included, each with its key and value, oldest first |
| `Attention.StepWindow` | scripts/qwen3_code2wav_stateful_reference.py:255-308 | and so does position |h| + i of a streaming step after any history h |
| `Code2WavReference.LayerStepCorrect` | scripts/qwen3_code2wav_stateful_reference.py:340-355 | the same for a whole transformer layer |
| `Code2WavReference.LayersStep` | scripts/qwen3_code2wav_stateful_reference.py:384-387 | the same through all layers, each with its own cache |
| `Code2WavReference.PreTransformerStreamChunks` | scripts/qwen3_code2wav_stateful_reference.py:369-391 | accepted if and only if some leading run of the sizes sums to the frame count; then the chunks concatenate to the full pre-transformer |
| `Code2WavReference.StreamConvNextBlockChunks` | scripts/qwen3_code2wav_stateful_reference.py:453-464 | ConvNeXt block by chunks equals the block on the whole signal |
| `Code2WavReference.StreamResidualUnitChunks` | scripts/qwen3_code2wav_stateful_reference.py:475-480 | residual unit by chunks equals the unit on the whole signal, chunk shapes matching for the residual |
| `Code2WavReference.StreamTConvChunks` | scripts/qwen3_code2wav_stateful_reference.py:434-450 | a stage whose chunks are non-empty streams the full transposed convolution |
| `Code2WavReference.StreamBlockChunks` | scripts/qwen3_code2wav_stateful_reference.py:492-497 | decoder stage by chunks equals the stage on the whole signal |
| `Code2WavReference.ConvnetStreamOnline` | scripts/qwen3_code2wav_stateful_reference.py:519-533 | the whole convolutional back end by chunks equals one pass |
| `Code2WavReference.Code2WavStreamOnline` | scripts/qwen3_code2wav_stateful_reference.py:542-545 | for every chunking that covers the frames the streamed waveform equals model(codes), sample for sample; refused exactly if the chunking does not cover them or no sample comes out to concatenate |
| `Code2WavSamples.ConvSampleIs` | scripts/qwen3_code2wav_stateful_reference.py:60-62 | sample t of the causal convolution is bias + sum over k of w[k] * x[t - (K - 1 - k) * dilation], zeros before the signal |
| `Code2WavSamples.TConvSampleIs` | scripts/qwen3_code2wav_stateful_reference.py:162-215 | length of the trimmed transposed convolution, and its sample t as bias + sum over i of w[left_pad + t - i * stride] * x[i] |
| `Code2WavSamples.LayerSampleIs` | scripts/qwen3_code2wav_stateful_reference.py:340-355 | position t of a layer joins the input with attention over the last `window` normed positions |
| `Code2WavSamples.ConvNextSampleIs` | scripts/qwen3_code2wav_stateful_reference.py:453-464 | input plus the tail of the convolution's sample |
| `Code2WavSamples.UnitSampleIs` | scripts/qwen3_code2wav_stateful_reference.py:475-480 | input plus the second convolution's sample over the activated first one |
| `Code2WavSamples.PassIsLimited` | scripts/qwen3_code2wav_stateful_reference.py:542-545 | the waveform is the decoder output limited to -1 .. 1, unchanged inside |
| `ExportSteps.ExportConvStepCorrect` | scripts/qwen3_tts_code2wav_stateful_export.py:48-53 | the fixed-size conv state is the reference history and the step adds exactly the new samples |
| `ExportSteps.ExportTConvStepCorrect` | scripts/qwen3_tts_code2wav_stateful_export.py:56-94 | with left_pad 0 and right_pad = kernel - stride the pending buffer always holds the unfinished raw tail, and the step emits exactly the new samples |
| `ExportSteps.PendingRefinesAccumulator` | scripts/qwen3_tts_code2wav_stateful_export.py:56-94 | the pending buffer emits what the reference's growing accumulator emits, final flag or not |
| `ExportSteps.FixedCacheIsCache` | scripts/qwen3_tts_code2wav_stateful_export.py:152-192 | masking k_pos >= 0 in the zero-filled fixed cache leaves exactly the growing cache's entries, positions included |
| `ExportSteps.ExportAttentionStepCorrect` | scripts/qwen3_tts_code2wav_stateful_export.py:152-192 | one exported attention step adds exactly the new positions and rolls both state tensors on |
| `ExportSteps.ExportStepWindow` | scripts/qwen3_tts_code2wav_stateful_export.py:173-192 | the exported step attends to exactly the last `window` positions, its own included |
| `ExportSteps.FixedCacheRefinesGrowing` | scripts/qwen3_tts_code2wav_stateful_export.py:152-192 | exported and reference attention give the same outputs from corresponding caches |
| `ExportSteps.StateSizeKept` | scripts/qwen3_tts_code2wav_stateful_export.py:192-192 | the state tensor keeps its declared size if and only if the window is at least 2 (or the chunk is empty) |
| `ExportSteps.WindowOneGrows` | scripts/qwen3_tts_code2wav_stateful_export.py:192-192 | with a window of 1 the declared size is 0 and one frame leaves one entry |
| `Code2WavExport.ConvForward` | scripts/qwen3_tts_code2wav_stateful_export.py:219-255 | takes and returns a state tensor exactly when the conv has padding; output and state are those of the longer history |
| `Code2WavExport.TConvForward` | scripts/qwen3_tts_code2wav_stateful_export.py:272-277 | the same for a transposed conv with or without an overlap |
| `Code2WavExport.StageForward` | scripts/qwen3_tts_code2wav_stateful_export.py:271-278 | upsampling stage: output, cursor and state list follow the spec's order |
| `Code2WavExport.UnitForward` | scripts/qwen3_tts_code2wav_stateful_export.py:237-255 | residual unit: the same |
| `Code2WavExport.BlockForward` | scripts/qwen3_tts_code2wav_stateful_export.py:281-299 | decoder block of either kind: the same |
| `Code2WavExport.LayersForward` | scripts/qwen3_tts_code2wav_stateful_export.py:194-217 | all transformer layers: the same, two tensors a layer |
| `Code2WavExport.UpsampleForward` | scripts/qwen3_tts_code2wav_stateful_export.py:271-278 | all upsampling stages: the same |
| `Code2WavExport.DecoderForward` | scripts/qwen3_tts_code2wav_stateful_export.py:280-301 | all decoder blocks: the same |
| `Code2WavExport.PreForward` | scripts/qwen3_tts_code2wav_stateful_export.py:257-269 | code latents, pre-conv and transformer: the same |
| `Code2WavExport.Forward` | scripts/qwen3_tts_code2wav_stateful_export.py:257-304 | from the state list of any history and its offset, one non-empty chunk yields exactly the samples it adds to the full pass and the state list of the longer history, in the same order |
| `Code2WavSpecs.BuildStateSpecs` | scripts/qwen3_tts_code2wav_stateful_export.py:113-144 | the appended specs are the layers', the pre-conv's, the upsampler's and the decoder's, in that order |
| `Code2WavSpecs.StatesFitSpecs` | scripts/qwen3_tts_code2wav_stateful_export.py:113-144 | after every history the state list has the published count and sizes, tensor by tensor |
| `Code2WavSpecs.InitialStatesCorrect` | scripts/qwen3_tts_code2wav_stateful_export.py:146-147 | zero tensors of the published sizes are the state list of the empty history |
| `Code2WavSlots.ForwardSlots` | scripts/qwen3_tts_code2wav_stateful_export.py:257-301 | forward's cursor on a list of any length, padding or not: it gets through if and only if the list holds every tensor it takes, each module then takes the one at its own place, each once, and the new states come back in that order |
| `Code2WavSlots.ForwardOnPublishedList` | scripts/qwen3_tts_code2wav_stateful_export.py:113-301 | on the published list forward gets through if and only if the pre-conv has padding, and then takes and returns exactly the published tensors under their own names; without padding it runs off the end |
| `Code2WavSlots.UnpaddedForward` | scripts/qwen3_tts_code2wav_stateful_export.py:113-263 | a module with a one-tap pre-conv publishes an empty list, on which forward does not get through |
| `Code2WavRunner.Runner.Reset` | engine-overlay/addon/cpp/multimodal/statefulCode2WavRunner.cpp:254-263 | both buffers of every state zeroed and the offset 0, the engine's bindings untouched |
| `Code2WavRunner.Runner.SwapStateBuffers` | engine-overlay/addon/cpp/multimodal/statefulCode2WavRunner.cpp:381-394 | the host swaps state by state, each of the two bindings follows if its own call succeeds, and the loop stops at the first state with a failed call |
| `Code2WavRunner.Runner.GenerateChunk` | engine-overlay/addon/cpp/multimodal/statefulCode2WavRunner.cpp:396-433 | from any bindings: checks, inference on codes, offset and is_final into the bound output buffers, length check, offset and swap, with every rejection and the throw |
| `Code2WavRunner.DriveRunner` | engine-overlay/addon/cpp/multimodal/statefulCode2WavRunner.cpp:254-433 | over any calls, failed rebinds included: while the bindings agreed at the last reset and nothing has thrown since, the samples, states and offset since that reset are the fold over the chunks accepted since, whose frames are the columns of the accepted codes in order; the outcomes alone show when that is known |
| `Code2WavRunner.ChunkFits` | engine-overlay/addon/cpp/multimodal/statefulCode2WavRunner.cpp:396-433 | from a ready runner: a rejected call leaves read state and offset unchanged and the runner ready, a produced chunk is the fold's next step, and after a throw the bindings never agree |
| `Code2WavRunner.RunIsFold` | engine-overlay/addon/cpp/multimodal/statefulCode2WavRunner.cpp:254-433 | the fold law over every run |
| `Code2WavRunner.FramesAreRows` | engine-overlay/addon/cpp/multimodal/statefulCode2WavRunner.cpp:265-300 | in every run, for every quantizer q, component q of the frames accepted since the last reset is the concatenation of the rows codes[q] of the calls that got through since, and each part carries its call's final flag |
| `Code2WavRunner.TrustedIsReady` | engine-overlay/addon/cpp/multimodal/statefulCode2WavRunner.cpp:254-433 | after a throw, one chunk that gets through followed by a reset makes the runner ready, and the outcomes alone tell |
| `Code2WavRunner.TrustIs` | engine-overlay/addon/cpp/multimodal/statefulCode2WavRunner.cpp:396-433 | that judgement is never in doubt without a throw, always after one, and settled again by a chunk that gets through and a reset |
| `Code2WavRunner.ThrowLeaves` | engine-overlay/addon/cpp/multimodal/statefulCode2WavRunner.cpp:381-433 | what a throw leaves: offset moved, host swapped up to the failing state, only that state's bindings wrong: exchanged if both calls failed, one buffer for both if one did |
| `Code2WavRunner.ResetFitsIff` | engine-overlay/addon/cpp/multimodal/statefulCode2WavRunner.cpp:254-263 | reset makes the runner ready if and only if the bindings agreed before it |
| `Code2WavRunner.FirstChunkAfterReset` | engine-overlay/addon/cpp/multimodal/statefulCode2WavRunner.cpp:254-433 | after a reset with unaliased bindings the first chunk sounds right, and the runner can go on if and only if each state's output was bound to the host's write buffer or came out zero |
| `Code2WavRunner.SecondResetRepairs` | engine-overlay/addon/cpp/multimodal/statefulCode2WavRunner.cpp:254-433 | reset, any chunk that gets through, reset: ready again from any bindings |
| `Code2WavRunner.ResetDoesNotRepair` | engine-overlay/addon/cpp/multimodal/statefulCode2WavRunner.cpp:254-433 | a run that shows it: throw, reset, two good chunks, and the second decodes from a lost state |
| `Code2WavRunner.SwapShape` | engine-overlay/addon/cpp/multimodal/statefulCode2WavRunner.cpp:381-394 | where every read side and binding stands after a swap loop that stopped anywhere |
| `Code2WavRunner.FoldIsFullPass` | engine-overlay/addon/cpp/multimodal/statefulCode2WavRunner.cpp:254-433 | if along these chunks the engine computes what forward computes, the fold is the full pass over all frames |
| `Code2WavRunner.ForwardFold` | scripts/qwen3_tts_code2wav_stateful_export.py:257-304 | forward run chunk by chunk from the published zeros does so: its samples are the full pass and its states those of the whole history |
| `WorkerIO.NeverOversubscribed` | deploy/docker/worker_io.voxedge-patch.py:74-79 | in every reachable state free permits plus holders equal max(1, concurrency), permits are never negative and no more queues than that are registered |
| `WorkerIO.NothingWrittenAfterClose` | deploy/docker/worker_io.voxedge-patch.py:139-161 | in every interleaving, once the closed flag is set stdin never changes again, neither by requests nor by cancels |
| `WorkerIO.CloseWakesEveryone` | deploy/docker/worker_io.voxedge-patch.py:188-204 | for any number of overlapping calls: once every call of close() that began has returned, every request that wrote its line and still waits has an exit sentinel it has not read |
| `WorkerIO.WokenUnlessListed` | deploy/docker/worker_io.voxedge-patch.py:188-204 | when some call has returned, a waiting request lacks an unread sentinel if and only if another call has taken it out of _inflight and not yet woken it |
| `WorkerIO.WokenIff` | deploy/docker/worker_io.voxedge-patch.py:188-316 | in every state of every run a request that wrote its line and waits has an unread exit sentinel if and only if it is neither in _inflight nor on a close() call's list |
| `WorkerIO.SecondCloseReturnsEarly` | deploy/docker/worker_io.voxedge-patch.py:198-204 | a run with two overlapping calls in which the second returns while a waiting request has no sentinel |
| `WorkerIO.LateRequestIsNotWoken` | deploy/docker/worker_io.voxedge-patch.py:206-316 | a run in which the worker's output ends first and a request then registers and writes its line: it waits with no sentinel and no reader to send one |
| `WorkerIO.ListedStep` | deploy/docker/worker_io.voxedge-patch.py:200-204 | only a sweep puts a request on a call's list, out of _inflight, and only its sentinel takes it off |
| `WorkerIO.LeftShapeStep` | deploy/docker/worker_io.voxedge-patch.py:200-204 | a request is on at most one call's list, once, and has no sentinel yet |
| `WorkerIO.QueuesGetTheirLines` | deploy/docker/worker_io.voxedge-patch.py:279-310 | each queue holds, in order, all and only the lines read while it was registered that carry its id or are errors read while it was the only one |
| `WorkerIO.WindowIsWhoWasInFlight` | deploy/docker/worker_io.voxedge-patch.py:279-310 | the history the law is stated with is right: a line's window is exactly the set registered when it was read |
| `WorkerIO.ExitsOnlyForTheDead` | deploy/docker/worker_io.voxedge-patch.py:188-204 | a queue gets at most one exit sentinel, never while it is registered, and only once the reader stopped or the flag is set |
| `WorkerIO.RouteDelivers` | deploy/docker/worker_io.voxedge-patch.py:292-310 | routing under the lock picks the one queue that the finished history assigns the line to, or none |
| `WorkerIO.InvStep` | deploy/docker/worker_io.voxedge-patch.py:133-316 | every step of requests, reader, cancel and close keeps permits, queue shape, coverage by close and the queue law |
| `WorkerIO.InvRun` | deploy/docker/worker_io.voxedge-patch.py:133-316 | so they hold in every state of every run |
| `WorkerIO.CoveredStep` | deploy/docker/worker_io.voxedge-patch.py:188-316 | no step drops a registered request from everybody's sight: it stays routable, woken, or on close()'s list |
| `WorkerIO.LogAgrees` | deploy/docker/worker_io.voxedge-patch.py:206-316 | no step changes which queues were open at a line already read |
| `WorkerRequests.WaitingReadsOn` | deploy/docker/worker_io.voxedge-patch.py:233-239 | in every run a request that still waits has read only lines that are neither done nor cancelled, and no sentinel |
| `WorkerRequests.TakeEndsIff` | deploy/docker/worker_io.voxedge-patch.py:163-175 | reading an item moves the request out of its loop if and only if it is the exit sentinel, done or cancelled |
| `WorkerRequests.LeftByTake` | deploy/docker/worker_io.voxedge-patch.py:233-244 | from then on, in every state, it has read exactly one such item, its last |
| `WorkerRequests.WrittenOnce` | deploy/docker/worker_io.voxedge-patch.py:206-244 | in every run a request's line is in stdin once if the request has come to wait, and else never |
| `WorkerRequests.CancelsWritten` | deploy/docker/worker_io.voxedge-patch.py:246-275 | as many cancel lines for an id as cancels called for it before the flag was set |
| `WorkerRequests.TurnedAway` | deploy/docker/worker_io.voxedge-patch.py:213-232 | a request that has not looked at the flag when close() sets it never gets a queue and never writes |
| `WorkerRequests.NobodyIsStuck` | deploy/docker/worker_io.voxedge-patch.py:133-316 | in every state of every run each request, the reader and each close() call can go on, and a new request can acquire a permit if and only if fewer than max(1, concurrency) hold one |
| `SparkRequest.StreamRequest` | native/edgellm_voice_worker/spark_tts_worker.cpp:680-805 | for every batching of the token ids: fails exactly without 32 speaker tokens or without audio tokens; hangs exactly when first_chunk_tokens < n and the last unclamped flush end exceeds 2^31-1, a condition on the settings and n alone; otherwise the chunks cut tokens 0..n at 0, first, first + chunk, ..., n, total 320 n samples, and exactly the last one is final |
| `SparkRequest.AnyBatching` | native/edgellm_voice_worker/spark_tts_worker.cpp:680-805 | however the same token ids are cut into batches, the outcome is of the same kind and the audio sample for sample the same |
| `SparkRequest.GridIsUnique` | native/edgellm_voice_worker/spark_tts_worker.cpp:731-805 | cuts at 0, first, first + chunk, ... up to the total are determined by the settings and the total, whatever was emitted live |
| `SparkRequest.Request.ReadTokens` | native/edgellm_voice_worker/spark_tts_worker.cpp:685-713 | speaker and audio tokens are the id ranges of the whole stream, with the first 32, the echo skip and the cap, however the ids were batched |
| `SparkRequest.TokenSorted` | native/edgellm_voice_worker/spark_tts_worker.cpp:685-713 | one more id: a speaker token in 151665..155760 while fewer than 32, an audio token in 155761..163952 after the echo and below the cap, else nothing |
| `SparkRequest.Request.Consume` | native/edgellm_voice_worker/spark_tts_worker.cpp:683-737 | one popped batch, of any size: the speaker is computed exactly when 32 tokens are in, and then one more chunk is emitted exactly if its tokens are there |
| `SparkRequest.Request.VocodeChunkWindow` | native/edgellm_voice_worker/spark_tts_worker.cpp:473-503 | the chunk is the window's audio without its left overlap, faded from the last emitted samples; state moves to endToken |
| `SparkRequest.Request.CrossfadeSeam` | native/edgellm_voice_worker/spark_tts_worker.cpp:486-494 | the in-place seam loop equals the crossfade specification |
| `SparkRequest.Request.EmitAudioChunk` | native/edgellm_voice_worker/spark_tts_worker.cpp:505-525 | an empty non-final chunk is dropped, anything else is emitted and counted |
| `SparkRequest.Request.EmitOneChunk` | native/edgellm_voice_worker/spark_tts_worker.cpp:655-662 | one more cut and one more event continuing the reference stream, or nothing at all |
| `SparkRequest.Request.Flush` | native/edgellm_voice_worker/spark_tts_worker.cpp:786-805 | drains the rest with exactly one final event, an empty marker if nothing was left; no progress if and only if an addition leaves int32 |
| `SparkRequest.FitsStep` | native/edgellm_voice_worker/spark_tts_worker.cpp:792-799 | an iteration makes progress exactly when its addition fits, and keeps the verdict for the rest |
| `SparkRequest.HangsAnyway` | native/edgellm_voice_worker/spark_tts_worker.cpp:731-799 | live chunks are cut on the grid first, first + chunk, ..., so whether the flush overflows does not depend on how the tokens arrived |
| `SparkRequest.GridEnd` | native/edgellm_voice_worker/spark_tts_worker.cpp:733-799 | from any grid point the flush ends where it would end from the first one |
| `SparkRequest.HangingRequest` | native/edgellm_voice_worker/spark_tts_worker.cpp:792-799 | a request that hangs: 32 speaker and 13 audio tokens in one batch, default first chunk, largest chunk setting |
| `SparkRequest.Request.EmitLive` | native/edgellm_voice_worker/spark_tts_worker.cpp:731-736 | exactly if a chunk's worth of tokens (first for the first chunk, then chunk) is there, exactly one more chunk, cut that many tokens on; it is not final |
| `SparkRequest.WindowAudio` | native/edgellm_voice_worker/spark_tts_worker.cpp:476-482 | skipping the overlap's samples leaves 320 samples for each new token |
| `SparkVocoder.BicodecSamples` | native/edgellm_voice_worker/spark_tts_worker.cpp:368-405 | padding to the minimum T and trimming shows neither in the length nor in the samples kept |
| `SparkVocoder.ChunkWindow` | native/edgellm_voice_worker/spark_tts_worker.cpp:473-489 | a chunk is the samples of its own tokens, out of the engine's audio for tokens max(0, from - overlap) .. to, repeated at the end up to 8 |
| `SparkVocoder.StreamedLength` | native/edgellm_voice_worker/spark_tts_worker.cpp:473-525 | 320 samples a token for every cut sequence |
| `SparkVocoder.StreamedGrows` | native/edgellm_voice_worker/spark_tts_worker.cpp:473-503 | tokens that arrive later do not change audio already emitted |
| `SparkVocoder.StreamedSample` | native/edgellm_voice_worker/spark_tts_worker.cpp:473-503 | if the engine is causal with reach <= left_overlap, every streamed sample is the one-shot sample, except at place i < 160 of a later chunk, where 160 * wav[t] = i * one_shot[t] + (160 - i) * wav[t - 160] |
| `SparkVocoder.StreamingIsOneShot` | native/edgellm_voice_worker/spark_tts_worker.cpp:473-503 | so outside those seams the streamed audio equals one-shot vocoding |
| `SparkVocoder.LookBackIsCausal` | native/edgellm_voice_worker/spark_tts_worker.cpp:473-503 | the hypotheses are met by an engine whose samples need the token itself and the one before it |
| `SparkCancel.CancelsHitTheirOwn` | native/edgellm_voice_worker/spark_tts_worker.cpp:313-340 | in every interleaving, ids repeated or not, a routed id leads to a channel of a request with that id, and every cancel delivered hit a request of the id it named |
| `SparkCancel.CancelledOnlyWhenAsked` | native/edgellm_voice_worker/spark_tts_worker.cpp:761-774 | a request ends as cancelled only if a cancel naming its own id reached its channel, or its own decode thread threw with an empty message (decodeErr then looks unset) |
| `SparkCancel.SilentFailureLooksCancelled` | native/edgellm_voice_worker/spark_tts_worker.cpp:607-624 | a run that shows the second case: one request, no cancel, an exception with an empty message, and the request ends as cancelled |
| `SparkCancel.ExactlyOneEnding` | native/edgellm_voice_worker/spark_tts_worker.cpp:751-854 | every request seen has exactly one of done, cancelled and error once no slot is working on it, and none before |
| `SparkCancel.EndingSaysWhy` | native/edgellm_voice_worker/spark_tts_worker.cpp:759-851 | in every run a request is told done if and only if its flush ended without a throw, error if and only if it was refused, threw or had a non-empty decode error at the join, cancelled if and only if its channel was cancelled then without one |
| `SparkCancel.OneKind` | native/edgellm_voice_worker/spark_tts_worker.cpp:759-851 | and no request is told two things |
| `SparkCancel.NothingBlocks` | native/edgellm_voice_worker/spark_tts_worker.cpp:590-870 | a request in a slot can always take its next step and comes nearer to the free slot, a throw ends it with an error, a new request is refused exactly without an idle slot, a cancel line can be looked up and delivered |
| `SparkCancel.CancelFindsRequest` | native/edgellm_voice_worker/spark_tts_worker.cpp:313-340 | with ids unique among present requests, a cancel finds the channel of the running request of its id |
| `SparkCancel.RouteShapeStep` | native/edgellm_voice_worker/spark_tts_worker.cpp:538-544 | registering after the channel is set and erasing before it is reset keeps every route correct |
| `SparkCancel.OneEndingStep` | native/edgellm_voice_worker/spark_tts_worker.cpp:751-854 | each step keeps the count of terminal events right for every request |
| `SparkCancel.CauseShapeStep` | native/edgellm_voice_worker/spark_tts_worker.cpp:759-847 | each step keeps every cancelled channel explained by a cancel for its id, its own decode, or its own failure |
| `SparkCancel.InvRun` | native/edgellm_voice_worker/spark_tts_worker.cpp:538-872 | all of this holds in every state of every run |
| `AsrWorker.Isolated` | native/edgellm_voice_worker/qwen3_asr_worker.cpp:563-951 | what a session is told in any interleaving equals what a worker with only that session's lines tells it, in cumulative and prefix mode, idle timeouts included; lane numbers and refused begins aside |
| `AsrWorker.Drive` | native/edgellm_voice_worker/qwen3_asr_worker.cpp:563-951 | over every run: every session's state and outputs are those of its own lines alone; a begin is refused if and only if the session is not live and all slots are; lanes and temp files stay exactly those of live sessions |
| `AsrWorker.SoloIsAlone` | native/edgellm_voice_worker/qwen3_asr_worker.cpp:563-951 | a session's own run ignores other sessions' lines |
| `AsrWorker.AloneIsNeverRefused` | native/edgellm_voice_worker/qwen3_asr_worker.cpp:578-586 | a lone session always gets a lane |
| `AsrWorker.LanesBound` | native/edgellm_voice_worker/qwen3_asr_worker.cpp:563-598 | held lanes equal live sessions in number, never exceed the slots, and below that a lane is free |
| `AsrWorker.Worker.HandleBegin` | native/edgellm_voice_worker/qwen3_asr_worker.cpp:563-598 | missing id, re-begin, saturation and admission; refused exactly when full; no other session is affected |
| `AsrWorker.Worker.HandleChunk` | native/edgellm_voice_worker/qwen3_asr_worker.cpp:616-750 | the session takes its own chunk step, exactly one line is written, every other session's view is unchanged, lanes and files stay consistent |
| `AsrWorker.Worker.HandleEnd` | native/edgellm_voice_worker/qwen3_asr_worker.cpp:777-921 | the session ends with its own final event, its lane is released, its file and the end's own temp file are gone, others unchanged |
| `AsrWorker.Worker.EndAudio` | native/edgellm_voice_worker/qwen3_asr_worker.cpp:788-902 | the final event is the session's, and removing both owned files leaves the disk without this session's file only |
| `AsrWorker.Worker.ConvertOwned` | native/edgellm_voice_worker/qwen3_asr_worker.cpp:668-685 | the old temp file goes, a new one comes exactly if the PCM converts, nobody else's audio changes |
| `AsrWorker.Worker.DecodeHop` | native/edgellm_voice_worker/qwen3_asr_worker.cpp:702-749 | one hop is the session's hop, cumulative or behind the confirmed prefix |
| `AsrWorker.Worker.Finalize` | native/edgellm_voice_worker/qwen3_asr_worker.cpp:832-902 | the final decode is the session's, one-shot or legacy rollback |
| `AsrWorker.Worker.SweepIdleSessions` | native/edgellm_voice_worker/qwen3_asr_worker.cpp:924-951 | exactly the sessions silent for more than 30 s are dropped and told so, once each; the rest are untouched |
| `AsrWorker.FilesErase` | native/edgellm_voice_worker/qwen3_asr_worker.cpp:904-921 | deleting a session's file, with or without the session, leaves every other file owned by a live session |
| `AsrWorker.UntouchedFile` | native/edgellm_voice_worker/qwen3_asr_worker.cpp:668-676 | a session's audio survives any other session's file being dropped or replaced |
| `AsrRuns.RunFollowsScript` | native/edgellm_voice_worker/qwen3_asr_worker.cpp:616-921 | in every run and every mode the session's audio and PCM are a function of the payloads since its begin; no decode, prefix or transcript influences them |
| `AsrRuns.FinalIsOneShot` | native/edgellm_voice_worker/qwen3_asr_worker.cpp:777-902 | in the default modes, closing a session after any run, by end or last chunk, answers with the one-shot decode of its last audio (or the named error), whatever the hops did |
| `AsrRuns.FinalRepeatsPartial` | native/edgellm_voice_worker/qwen3_asr_worker.cpp:730-749 | in cumulative mode, if a chunk of any run got a partial and the session is ended without further audio, with any foreign lines and timely sweeps in between, the final transcript is that partial's text |
| `AsrRuns.FileWinsIffNoPcm` | native/edgellm_voice_worker/qwen3_asr_worker.cpp:629-686 | in every run and mode a chunk naming a file is decoded from it if and only if the last PCM sent since begin, by it or an earlier chunk, is empty or absent: "last wins" fails across the two kinds |
| `AsrRuns.FileLosesAfterPcm` | native/edgellm_voice_worker/qwen3_asr_worker.cpp:629-676 | a run that shows it: PCM, then a file, and the session listens to the PCM |
| `AsrRuns.DanglesIff` | native/edgellm_voice_worker/qwen3_asr_worker.cpp:668-685 | after any chunks the session listens to a deleted file if and only if some chunk converted its PCM, a later one failed to, and no chunk after the first converted again or named a file |
| `AsrRuns.LostAudioIsDecoded` | native/edgellm_voice_worker/qwen3_asr_worker.cpp:668-902 | PCM that converts, PCM that does not, end without audio: the answer is the decode of a deleted file |
| `AsrTranscripts.PartialsChain` | native/edgellm_voice_worker/qwen3_asr_worker.cpp:694-733 | in every run in prefix mode partial k since begin is the stripped raw text k, which is a kept part of raw text k - 1 (nothing in the first `warmup` partials, then the longest clean decode of at most |tokens| - unfixed tokens) followed by the parsed answer of the core to it and that chunk's audio; the counter is their number |
| `AsrTranscripts.ChunkIsAnswered` | native/edgellm_voice_worker/qwen3_asr_worker.cpp:630-757 | in every run and mode the answer to a chunk: PCM errors, acknowledgement without audio, partial or failed partial, from the payloads since begin and the partials before |
| `AsrTranscripts.OtherLinesAnswered` | native/edgellm_voice_worker/qwen3_asr_worker.cpp:563-640 | begins, lines without a session and sweeps over 30000 ms: what each is answered, and nothing for lines of other sessions |
| `AsrTranscripts.ClosingIsLegacy` | native/edgellm_voice_worker/qwen3_asr_worker.cpp:777-902 | in the legacy prefix mode the final is one more link of the chain, keeping at least one token |
| `AsrPrefix.ComputePrefix` | native/edgellm_voice_worker/qwen3_asr_worker.cpp:1480-1529 | the retry loop terminates with the confirmed prefix of the specification |
| `AsrPrefix.ConfirmedIsLongestClean` | native/edgellm_voice_worker/qwen3_asr_worker.cpp:1480-1529 | that prefix drops at least unfixed tokens, is the longest one without a split character, and is clean unless finishing forces its single token |
| `Graphs.ExecMatches` | models/kokoro/split_kokoro_hybrid.py:51-173 | any node list that is fed runs, and gives every tensor its value in a given solution |
| `Graphs.ExecSolves` | models/kokoro/split_kokoro_hybrid.py:51-173 | a successful run of a single-assignment list solves every node |
| `KokoroSplit.VisitTensor` | models/kokoro/split_kokoro_hybrid.py:120-127 | the recursive visitor returns the least producer-closed extension holding the tensor's producer |
| `KokoroSplit.SplitByOutput` | models/kokoro/split_kokoro_hybrid.py:109-142 | refused exactly if no node produces the tensor; prefix = its ancestors and nothing else, suffix = the rest, boundary = all that crosses and the cut tensor |
| `KokoroSplit.SplitByIndex` | models/kokoro/split_kokoro_hybrid.py:51-69 | refused exactly for an index out of range or an empty boundary; the extracted prefix is a closed part of the first nodes |
| `KokoroSplit.SplitPreserves` | models/kokoro/split_kokoro_hybrid.py:51-173 | running the prefix and feeding its boundary to the suffix gives every suffix tensor its original value, with exactly the stated names available |
| `KokoroSplit.OutputSurvives` | models/kokoro/split_kokoro_hybrid.py:144-173 | an original output is available from the suffix model, with its value, if and only if a suffix node produces it or it is on the boundary |
| `KokoroSplit.LoseOutput` | models/kokoro/split_kokoro_hybrid.py:109-173 | splitting the chain in, a, b, c at b: the whole chain computes a, the suffix model runs and does not hold it, for every kernel |
| `KokoroSplit.PartRuns` | models/kokoro/split_kokoro_hybrid.py:51-173 | any fed part of a graph computes its tensors as the whole graph does |
| `GateUpFusion.HalvesAreProducts` | scripts/optimize_qwen3_tts_cp_onnx.py:62-110 | multiplying by concatenated weights and slicing equals multiplying by each weight |
| `GateUpFusion.ProductEntry` | scripts/optimize_qwen3_tts_cp_onnx.py:62-75 | the products meant are matrix products: entry (i, j) is the sum over k of x[i][k] * w[k][j] |
| `GateUpFusion.FuseMlpGateUp` | scripts/optimize_qwen3_tts_cp_onnx.py:26-129 | fuses exactly the fusable layers, replaces the gate node and drops the up node, adds exactly their constants; with none the graph is unchanged |
| `GateUpFusion.FindProjections` | scripts/optimize_qwen3_tts_cp_onnx.py:31-42 | each layer's last gate and up MatMul |
| `GateUpFusion.RolesAre` | scripts/optimize_qwen3_tts_cp_onnx.py:29-42 | each layer's gate and up node is the last MatMul with its name, and a layer without one is not listed |
| `GateUpFusion.BeforeIsFirst` | scripts/optimize_qwen3_tts_cp_onnx.py:36-41 | the layer is the text before the first occurrence of the mark, and there is none without an occurrence |
| `GateUpFusion.PlanFusion` | scripts/optimize_qwen3_tts_cp_onnx.py:44-111 | exactly the layers with both projections on one input and equal-shaped constant weights |
| `GateUpFusion.FusedIff` | scripts/optimize_qwen3_tts_cp_onnx.py:48-59 | a layer is fused if and only if its last gate and last up node read one tensor and have constant matrices of one shape as weights, and then those two are the pair |
| `GateUpFusion.Rebuild` | scripts/optimize_qwen3_tts_cp_onnx.py:116-124 | the new node list is the old one with fused gates expanded and fused ups skipped |
| `GateUpFusion.FusionPreserves` | scripts/optimize_qwen3_tts_cp_onnx.py:26-129 | every tensor of the original keeps its value when no surviving reader of an up output stands before its layer's gate |
| `GateUpFusion.FusionRunsIff` | scripts/optimize_qwen3_tts_cp_onnx.py:116-127 | and the fused graph runs if and only if that order holds |
| `GateUpFusion.FuseEarlyReader` | scripts/optimize_qwen3_tts_cp_onnx.py:26-129 | the pass on a layer whose up tensor is read before the gate: the original graph runs on every input, the rewritten one on none |
| `GateUpFusion.FusionNeedsOrder` | scripts/optimize_qwen3_tts_cp_onnx.py:116-127 | the only-if half: an earlier reader finds its input missing |
| `AudioSplitter.WindowSumsAbs` | native/edgellm_voice_worker/audio_vad_split.cpp:36-53 | the running sum gives every window's own naive sum |
| `AudioSplitter.SettingsInSamples` | native/edgellm_voice_worker/audio_vad_split.cpp:108-112 | every length is its setting's seconds or milliseconds times the rate, without the fraction, the window at least 4 |
| `AudioSplitter.ArgminFirst` | native/edgellm_voice_worker/audio_vad_split.cpp:56-67 | the first smallest element |
| `AudioSplitter.ArgminFirstAbs` | native/edgellm_voice_worker/audio_vad_split.cpp:69-81 | the first sample of smallest magnitude |
| `AudioSplitter.Quietest` | native/edgellm_voice_worker/audio_vad_split.cpp:123-130 | the first quietest sample of the first quietest window |
| `AudioSplitter.NextCut` | native/edgellm_voice_worker/audio_vad_split.cpp:116-133 | the nominal cut without room to search, else the quiet one, clamped |
| `AudioSplitter.CutIsQuietest` | native/edgellm_voice_worker/audio_vad_split.cpp:116-133 | in the audio itself: the first quietest sample of the first quietest window within expand of the nominal end, or the nominal end if at most a window is left there; at least one sample on, not past the end |
| `AudioSplitter.CutBounds` | native/edgellm_voice_worker/audio_vad_split.cpp:116-133 | a cut advances and stays within max_len +- expand |
| `AudioSplitter.Boundaries` | native/edgellm_voice_worker/audio_vad_split.cpp:97-140 | terminates for max_len >= 0; ends at the total; every cut placed by the rule; strictly increasing if and only if max_len >= 1, the audio fits one chunk or is empty; for max_len >= 1 the length bounds, the last chunk at most max_len |
| `AudioSplitter.CutsAreGood` | native/edgellm_voice_worker/audio_vad_split.cpp:97-140 | those bounds, derived from the rule |
| `AudioSplitter.RepeatedCut` | native/edgellm_voice_worker/audio_vad_split.cpp:97-140 | one sample and a chunk length of half a sample: the cuts do not rise |
| `AudioSplitter.NegativeLengthStalls` | native/edgellm_voice_worker/audio_vad_split.cpp:115-137 | with max_len < 0 every cut from any start stays within the audio and the loop's guard holds again, so the loop never ends |
| `AudioSplitter.StillCutting` | native/edgellm_voice_worker/audio_vad_split.cpp:115-137 | with max_len < 0, after any number of turns of the loop its guard still holds |
| `AudioSplitter.Split` | native/edgellm_voice_worker/audio_vad_split.cpp:143-171 | the pieces before padding concatenate to the input; each chunk is its piece plus zeros up to the minimum; offsets are the start times |
| `AudioSplitter.PiecesJoin` | native/edgellm_voice_worker/audio_vad_split.cpp:150-161 | pieces up to a cut are the audio up to it |
| `Half.ConversionIsNearest` | native/edgellm_voice_worker/qwen3_asr_worker.cpp:135-158 | every non-NaN magnitude goes to a nearest binary16 magnitude, infinity counted as 2^16, carries included |
| `Half.RoundsToCloser` | native/edgellm_voice_worker/qwen3_asr_worker.cpp:135-158 | the closer neighbour; ties to even in the normal range, upward in the subnormal range |
| `Half.TiesToEvenIff` | native/edgellm_voice_worker/qwen3_asr_worker.cpp:141-147 | equal to round-to-nearest-even (section 4.3.1 of IEEE 754-2008) if and only if it is not a subnormal tie above an even neighbour |
| `Half.SubnormalTieBits` | native/edgellm_voice_worker/qwen3_asr_worker.cpp:141-147 | which bit patterns those ties are |
| `Half.SmallestTieGoesUp` | native/edgellm_voice_worker/qwen3_asr_worker.cpp:141-147 | 2^-25 is such a tie: the code gives 2^-24, round-to-nearest-even gives 0 |
| `Half.ConversionIsMonotone` | native/edgellm_voice_worker/qwen3_asr_worker.cpp:135-158 | larger magnitudes never convert to smaller ones |
| `Half.ValuesKeepOrder` | native/edgellm_voice_worker/qwen3_asr_worker.cpp:135-158 | the order of all signed non-NaN values is kept |
| `Half.ShiftThenRound` | native/edgellm_voice_worker/qwen3_asr_worker.cpp:144-146 | shifting first and rounding after is a single rounding, half upward |
| `Half.SignApart` | native/edgellm_voice_worker/qwen3_asr_worker.cpp:138-138 | the sign bit goes over unchanged and influences nothing else |
| `Half.NanStaysNan` | native/edgellm_voice_worker/qwen3_asr_worker.cpp:148-152 | a NaN becomes a NaN, exponent all ones and mantissa not zero; every other pattern is a number of the theorems above |
| `Base64.Encode` | native/edgellm_voice_worker/qwen3_tts_worker.cpp:199-216 | the symbols' number is the bytes' number with two or four zero bits behind it; length 4 * ceil(n / 3); only '=' at the last two places besides the alphabet |
| `Base64.AlphabetIs` | native/edgellm_voice_worker/qwen3_tts_worker.cpp:201-201 | the alphabet of section 4 of RFC 4648, in order, and nothing else has a symbol |
| `Base64.Decode` | native/edgellm_voice_worker/qwen3_asr_worker.cpp:97-125 | the bytes are the whole bytes of the alphabet symbols' number, whatever else is in the text, although the accumulator keeps only 32 bits |
| `Base64.KeepsShift` | native/edgellm_voice_worker/qwen3_asr_worker.cpp:116-116 | the wrapped accumulator stays congruent to the unbounded number |
| `Base64.KeepsByte` | native/edgellm_voice_worker/qwen3_asr_worker.cpp:118-122 | the byte taken from the wrapped, possibly negative accumulator is the right one |
| `Base64.RoundTrip` | native/edgellm_voice_worker/qwen3_tts_worker.cpp:199-216 | whatever decodes an encoding's symbols is the data |
| `Base64.StrewnSymbols` | native/edgellm_voice_worker/qwen3_asr_worker.cpp:113-115 | characters outside the alphabet do not change the symbols |
| `Base64.EncodeThenDecode` | native/edgellm_voice_worker/qwen3_tts_worker.cpp:199-216 | encoding, inserting any characters outside the alphabet anywhere, and decoding returns the data |

## Left out

- Floating-point rounding in the FFT, the convolutions, the window sums and the crossfade: reals are used. Only the float16 conversion is bit-exact, with shifts and masks written as division and remainder.
- KissFFT's FIXED_POINT, SIMD, OpenMP and in-place branches, kiss_fftri, the sizing helpers and the failure of malloc in the generic butterfly.
- Butterflies.GenericBin: does not model int overflow of the running twiddle index, which needs tables of more than 2^30 entries.
- KfFactor.FloorSqrt: the C code takes the floor of a double square root, which is exact for every int.
- Several channels per tensor, bias layouts and head counts: every Code2Wav tensor is one channel.
- Attention with a window of 0, and the numerical form of softmax: attention is an arbitrary function of the visible (position, key, value) entries.
- Code2WavReference.StreamTConvChunks: needs non-empty chunks, which the stages before it are proved to deliver.
- Code2WavRunner.Runner.GenerateChunk: an engine whose input and output share a buffer may give anything; CUDA errors that abort, and the choice of waveform length by the engine's reported shape, are not in it.
- State names in the exported specs are constructor values, not strings; engine loading and buffer allocation.
- WorkerIO is a state machine over its critical sections, not a class with threads: a step is one locked region, queue operation or unlocked read. Not in it: cancellation of a coroutine blocked in the semaphore acquire, the 60 s timeouts (giving up is a step that may happen at any time), non-JSON lines, and writes that fail half-way.
- SparkRequest.StreamRequest: models stream_audio = true; PCM16 conversion, JSON fields, timings and engine failures (windows beyond the 600-token profile) are not in it. The single-segment path is `SparkVocoder.RunBicodec`.
- SparkCancel: a channel reports the reason kCancelled only when it was cancelled; the slot pool is "some idle slot or none", a stream channel is its cancelled flag, and shutdown at end of input is not in it.
- AsrWorker: SessionLaneManager is "some free lane or none"; temp names are never reused; paths that callers give name no temp file of the worker and their contents do not change; JSON parsing, one-shot requests without an event, and the compiled-out session and delta paths.
- AsrSession: stripLangTag and parseAsrText are arbitrary functions, and the decode core is an arbitrary deterministic function of settings, audio and prefix.
- KokoroSplit: nodes with nested subgraphs, value infos, file names and the order of boundary names; onnx's extract_model is taken to keep the ancestors of the requested outputs.
- GateUpFusion: the invented tensor names are a parameter assumed fresh and distinct between layers; initializers are not overridden by graph inputs; tensors are lists of rows.
- AudioSplitter.Boundaries: needs max_len >= 0 (or audio short enough for one chunk), since the code does not terminate otherwise.
- The floating-point seconds arithmetic of the splitter's settings; chunk offsets are exact.
- The single-node ONNX surgeries, INT8 quantisation, layout transposes, benchmarks, downloaders, packaging and command-line parsing: they would only add easy members or are input/output.
- SparkRequest.Request.Flush: a signed 32-bit overflow is taken to wrap, which C++ leaves undefined.
- Base64.Decode: shifting the signed accumulator is taken to wrap; only bits that survive any such shift are used.
