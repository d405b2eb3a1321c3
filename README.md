# pcmtest: a verified model of the native PCM play/record test tool

This project models the core of `audio-native/qdsp5/pcmtest.c`. That file is
a test utility that plays a WAV file to a PCM output device and records from
a PCM input device into a WAV file. The model covers these parts:

- **The in-memory source** (`fill_buffer`).
  - A cursor (`next`, `avail`) over the loaded sample bytes.
  - It is modelled as the class `Player` (fields `next`, `avail`, `repeat`).
  - `FillStep` is the pure specification of one call. `Drain` is the
    specification of a whole pass.
- **Playback** (`pcm_play`).
  - The setup failures: the device does not open, the configuration exchange
    fails, or the buffer cannot be allocated.
  - The prefill loop, specified one round at a time by `PrimeRound` and as a
    whole by `Prefill`.
  - `AUDIO_START`.
  - The steady-state loop, specified one iteration at a time by `Step` and as
    a whole by `Stream`. The loop can stop when the source is exhausted, when
    `quit` is seen, or on a short write. It rewinds when repeats remain, and
    counts a finite repeat count down.
  - The device is a `Device` sink. Write number `k` of a session either takes
    the whole chunk or comes back short, and a ghost log records every chunk
    handed to it. `quit` is an input, read once per iteration.
  - The imperative methods `Player.Prime`, `Player.Steady` and `Player.Play`
    are proved equal to the specification functions.
- **WAV files.**
  - The 44-byte `struct wav_header`, written and read as little-endian bytes.
  - The header checks of `wav_play`.
  - Loading of `data_sz` sample bytes in `play_file`.
  - The capture header that `wav_rec` builds at the start, and the one it
    finalizes at the end.
- **Recording** (`wav_rec`).
  - Parameter validation.
  - The placeholder header that is written before recording.
  - The negotiated buffer size, which must not exceed the 8192-byte buffer.
  - The read-and-append loop with its 32-bit running `total`.
  - The outcome for the output file. A successful session commits the file
    with its finalized header at offset 0. A failure removes it.
- **Commands.**
  - The `playpcm` option tokens, including the `-repeat=` mapping.
  - The two `-cmd=stop` control handlers.

A fixed-width C integer is a subset type (`byte`, `uint16`, `uint32`). The
unsigned wrap-around of `total` and `riff_sz` is written out modulo 2^32.
Files are `seq<byte>`. A file write at an offset is `Bytes.WriteAt`. This
function overwrites the bytes in place and extends the file when the write
runs past its end.

The following are inputs of the model, because they come from the operating
system, the driver or another thread:

- the outcome of every `open`, `ioctl`, `malloc`, device `read` and `write`;
- the negotiated `buffer_size` and `buffer_count`;
- the value of `quit` at each playback iteration;
- the number of capture transfers made before `rec_stop` is seen;
- the C library's `atoi`.

The steady-state playback loop of the source has no bound (`for (;;)` with
an infinite repeat count). It is modelled for at most `fuel` iterations, and
`OutOfFuel` reports that this bound was reached.

Some behaviours of the code are worth knowing, because a reader might
expect the tool to act otherwise. The model keeps each one as written:

- `riff_sz` is written as `total + 8 + 16 + 8`, that is `total + 32`. The
  RIFF chunk size of a canonical WAV file is the file length less 8, which
  for a 44-byte header is `total + 36`. `PcmCapture.RiffSizeShortByFour`
  states the difference.
- A control token that starts with `-cmd=` but names no known command
  still returns 0, and so does a token without that prefix.
- The playback stop command only raises `quit` in the build with the
  session extensions (`QC_PROP` and `AUDIOV2`). In the other build the
  handler still matches `-cmd=` and prints the command, but acts on no
  command. `PlayControl` takes the build as the parameter `stopBuild`.
- A recording whose capture device fails to open returns -1. The output
  file is not removed, so it keeps the placeholder header. Only the
  failures after that point unlink the file.
- `pcm_play` returns 0 once setup has succeeded, however the loop ends.
  That includes a failed `AUDIO_START` and a short write. A short write
  during prefill only ends the prefill, and the steady-state loop still
  runs.
- `-repeat=N` with a negative `N` gives a negative count. Such a count is
  never counted down, so it plays for ever, just like `-repeat=0`.
- A finite repeat count always ends the steady-state loop, whatever `quit`
  and the device do. `PcmPlayback.FiniteTerminates` bounds the number of
  iterations.
- If the driver reports a `buffer_size` of 0 while sample bytes are left,
  every `fill` returns 0 bytes and every `write` of 0 bytes is complete.
  The loop then writes empty chunks for ever without moving the cursor,
  even with a finite repeat count. `PcmPlayback.ZeroBufferNeverEnds`
  states this. The lemmas about whole passes (`Drain`, `StreamPasses`,
  `PlayRepeatsSource`, `FiniteTerminates`) assume a buffer size above 0
  for this reason.

## Model

| member | source | states |
|---|---|---|
| Bytes.WriteAt | audio-native/qdsp5/pcmtest.c:321 | a write of `d` at offset `pos` leaves the bytes before `pos` unchanged, puts exactly `d` at `pos`, keeps whatever followed, and makes the file as long as the old length or the end of the write, whichever is larger |
| Bytes.WriteAtSequential | audio-native/qdsp5/pcmtest.c:389-391 | appending a chunk at the current file position, right after a block written at offset 0, is the same as writing both as one block |
| Bytes.WriteAtOverwrite | audio-native/qdsp5/pcmtest.c:402-404 | rewriting a header of the same size at offset 0 replaces that header and keeps the data written after it |
| Bytes.Le16RoundTrip | audio-native/qdsp5/pcmtest.c:166-180 | a 16-bit header field written little-endian reads back unchanged |
| Bytes.FromLe16RoundTrip | audio-native/qdsp5/pcmtest.c:166-180 | every 2-byte block is the little-endian image of the value it reads as |
| Bytes.Le32RoundTrip | audio-native/qdsp5/pcmtest.c:166-180 | a 32-bit header field written little-endian reads back unchanged |
| Bytes.FromLe32RoundTrip | audio-native/qdsp5/pcmtest.c:166-180 | every 4-byte block is the little-endian image of the value it reads as |
| WavFormat.DecodeEncode | audio-native/qdsp5/pcmtest.c:166-180 | reading back the 44 bytes of a written header struct gives every field back unchanged |
| WavFormat.EncodeDecode | audio-native/qdsp5/pcmtest.c:166-180 | every 44-byte block is exactly the image of the header it decodes to, so the byte layout and the struct carry the same information |
| WavFormat.CheckPlayHeader | audio-native/qdsp5/pcmtest.c:240-258 | the header is accepted iff RIFF/WAVE/fmt tags, PCM format, `fmt_sz == 16` and 16 bits per sample all hold; then exactly rate, channel count and `data_sz` are passed on; the error is "not riff/wave" iff a tag is wrong and "not pcm" iff the tags are right but the format or `fmt_sz` is wrong |
| WavFormat.CheckIgnoresOtherFields | audio-native/qdsp5/pcmtest.c:240-255 | two headers that agree on the six checked fields get the same verdict and the same error |
| WavFormat.LoadWav | audio-native/qdsp5/pcmtest.c:232-258 | a file loads iff it holds a full header that passes the checks and at least `data_sz` bytes after it; the samples are then exactly the `data_sz` bytes after the header; a file under 44 bytes is a short header, and a rejected header carries the check's error |
| PcmPlayback.FillStep | audio-native/qdsp5/pcmtest.c:182-194 | one call hands out nothing exactly when `avail` is 0, and otherwise a chunk of exactly `min(sz, avail)` bytes, with the cursor left within the source |
| PcmPlayback.Player.Fill | audio-native/qdsp5/pcmtest.c:182-194 | returns -1 iff `avail` was 0 (cursor untouched); otherwise returns `min(sz, avail)`, advances `next` and reduces `avail` by exactly that, and copies exactly `data[next..next+n)`; the step agrees with `FillStep` |
| PcmPlayback.DrainShape | audio-native/qdsp5/pcmtest.c:182-194 | a whole pass from a cursor yields ceil(avail/sz) chunks, none empty, each at most `sz` bytes, all but the last exactly `sz`, and together exactly the remaining source bytes; no chunk at all iff nothing is left |
| PcmPlayback.DrainCovers | audio-native/qdsp5/pcmtest.c:182-194 | the chunks of a pass concatenate to the rest of the source and their number is ceil(avail/sz) |
| PcmPlayback.DrainChunkSizes | audio-native/qdsp5/pcmtest.c:182-194 | every chunk of a pass has 1 to `sz` bytes and all but the last exactly `sz` |
| PcmPlayback.PrimeRound | audio-native/qdsp5/pcmtest.c:104-107 | one prefill round writes nothing iff the source is exhausted, otherwise one chunk of at most `buffer_size` bytes, and priming goes on iff that write was accepted |
| PcmPlayback.Prefill | audio-native/qdsp5/pcmtest.c:103-108 | priming keeps the cursor within the source and leaves the repeat count alone |
| PcmPlayback.PrefillBounds | audio-native/qdsp5/pcmtest.c:103-108 | priming issues at most `buffer_count` writes, each at most `buffer_size` bytes, after what was logged before, and every write but the last was accepted |
| PcmPlayback.PrefillTakesPrefix | audio-native/qdsp5/pcmtest.c:103-108 | with every write accepted, what priming wrote followed by what is left to drain is exactly the pass it started from |
| PcmPlayback.Step | audio-native/qdsp5/pcmtest.c:118-139 | one iteration ends the loop with `Quit` iff `quit` is seen, and then writes nothing and keeps the repeat count; it writes nothing or exactly the chunk just filled (at most `buffer_size` bytes); it ends with a short write iff it wrote and the write was rejected, and goes on after a write iff it was accepted; it ends by exhaustion only with an empty source and repeat count 0; a negative count is kept and a non-negative one never grows or goes below 0 |
| PcmPlayback.Stream | audio-native/qdsp5/pcmtest.c:113-140 | the loop ends by exhaustion, quit, short write or the iteration bound (and only at the bound after `fuel` iterations); exhaustion leaves repeat 0; a negative count is never changed and a non-negative one only counts down |
| PcmPlayback.StreamUnfolds | audio-native/qdsp5/pcmtest.c:113-140 | the loop's outcome is that of its first iteration when that one ends it, and otherwise that of the rest of the loop from the new state |
| PcmPlayback.PcmPlay | audio-native/qdsp5/pcmtest.c:54-154 | returns -1 iff the device does not open, the configuration exchange fails or the buffer cannot be allocated, and then nothing is written; otherwise returns 0 and every chunk written is at most `buffer_size` bytes |
| PcmPlayback.QuitStopsWithoutWrite | audio-native/qdsp5/pcmtest.c:118-121 | when `quit` is seen, the loop ends in that iteration with no further write, the filled chunk consumed from the cursor, and the repeat count unchanged |
| PcmPlayback.ShortWriteStops | audio-native/qdsp5/pcmtest.c:133-135 | a rejected write ends the loop in that iteration, after exactly that chunk was handed to the device |
| PcmPlayback.StreamWritesBounded | audio-native/qdsp5/pcmtest.c:113-140 | the steady-state loop only appends to the device log, and every chunk it writes is at most `buffer_size` bytes |
| PcmPlayback.StreamStopsAtFirstQuit | audio-native/qdsp5/pcmtest.c:118-121 | no iteration before the last saw `quit`, and a `Quit` stop saw it in the last iteration |
| PcmPlayback.StreamStopsAtShortWrite | audio-native/qdsp5/pcmtest.c:133-135 | at most one write per iteration, every write but the last accepted, and the stop is a short write iff the last write was rejected |
| PcmPlayback.StreamPasses | audio-native/qdsp5/pcmtest.c:118-131 | with no quit, every write accepted and `r >= 0` repeats left, the loop writes the rest of the current pass and then `r` whole passes, and ends by exhaustion at the end of the source with repeat 0 |
| PcmPlayback.StreamPassesRewind | audio-native/qdsp5/pcmtest.c:122-131 | the same, when the source is exhausted and a repeat is left: the loop rewinds and counts the repeat down |
| PcmPlayback.StreamPassesChunk | audio-native/qdsp5/pcmtest.c:133-139 | the same, when bytes are left: the loop writes the next chunk and goes on |
| PcmPlayback.Fresh | audio-native/qdsp5/pcmtest.c:200-212 | a freshly loaded source has its cursor at offset 0 with all `|data|` bytes available, the given repeat count, and nothing written yet |
| PcmPlayback.FiniteTerminates | audio-native/qdsp5/pcmtest.c:113-140 | with a buffer size above 0 and a repeat count `r >= 0`, the loop ends by exhaustion, quit or a short write within the rest of the pass plus `r` further passes (one extra iteration per pass), whatever `quit` and the device do |
| PcmPlayback.ZeroBufferNeverEnds | audio-native/qdsp5/pcmtest.c:118-139 | with a buffer size of 0, bytes left, no quit and every write accepted, the loop never ends on its own: the cursor does not move and every iteration writes one empty chunk |
| PcmPlayback.PlayRepeatsSource | audio-native/qdsp5/pcmtest.c:103-140 | a session with repeat count `r >= 0`, a device that opens, configures, starts and accepts every write, and no quit, returns 0 after exactly `r + 1` passes, so the device receives the source bytes `r + 1` times over and the loop ends by exhaustion |
| PcmPlayback.PcmPlayPasses | audio-native/qdsp5/pcmtest.c:103-140 | under the same conditions, the chunks written are exactly `r + 1` copies of one pass |
| PcmPlayback.NegativeRepeatNeverExhausts | audio-native/qdsp5/pcmtest.c:127-128 | a negative repeat count is never changed, and the session never ends by exhaustion |
| PcmPlayback.Device.constructor | audio-native/qdsp5/pcmtest.c:54-58 | a newly opened device has written nothing |
| PcmPlayback.Device.Write | audio-native/qdsp5/pcmtest.c:133-135 | a write logs the chunk and returns its full length iff the device accepts that write, and otherwise a short result |
| PcmPlayback.Player.constructor | audio-native/qdsp5/pcmtest.c:200-212 | loading sets the cursor to the start of the copy with all of it available |
| PcmPlayback.Player.Prime | audio-native/qdsp5/pcmtest.c:103-108 | the prefill loop leaves the cursor and the device log exactly as `Prefill` says, and the repeat count unchanged |
| PcmPlayback.Player.Round | audio-native/qdsp5/pcmtest.c:104-107 | one prefill round leaves the state `PrimeRound` gives and reports the end of priming exactly when `PrimeRound` does |
| PcmPlayback.Player.Iterate | audio-native/qdsp5/pcmtest.c:118-139 | one iteration leaves exactly the state `Step` gives, reports the end of the loop exactly when `Step` ends it, and with the same reason |
| PcmPlayback.Player.Steady | audio-native/qdsp5/pcmtest.c:112-140 | the steady-state loop ends with the state and the reason `Stream` gives |
| PcmPlayback.Player.Play | audio-native/qdsp5/pcmtest.c:54-154 | the whole of `pcm_play` returns what `PcmPlay` returns and leaves the state and the device log it gives |
| PcmPlayback.WavPlay | audio-native/qdsp5/pcmtest.c:196-258 | a file that cannot be opened, read or accepted, or a failed allocation, returns -1 with nothing written; otherwise the loaded samples are played and the result and the device log are those of `PcmPlay` on them |
| Commands.PrefixSplit | audio-native/qdsp5/pcmtest.c:581-586 | a token starts with `-cmd=` followed by exactly `stop` iff it is `-cmd=stop` |
| Commands.RepeatFromOption | audio-native/qdsp5/pcmtest.c:459-463 | the stored count is non-negative iff N >= 1, and then it is N - 1; `-repeat=0` stores -1 |
| Commands.RepeatOptionPlaysNTimes | audio-native/qdsp5/pcmtest.c:459-463 | `-repeat=N` with N >= 1 plays the source exactly N times and then ends by exhaustion, given a working device and no stop |
| Commands.RepeatOptionForever | audio-native/qdsp5/pcmtest.c:459-463 | `-repeat=N` with N <= 0 never ends by exhausting the source |
| Commands.LastOf | audio-native/qdsp5/pcmtest.c:449-469 | finds the last token of a kind: it is of that kind and no later token is; None iff no token is of that kind |
| Commands.OptionParamsSnoc | audio-native/qdsp5/pcmtest.c:449-469 | one more token overrides exactly the setting its prefix names and leaves the others alone |
| Commands.ReadPlayParams | audio-native/qdsp5/pcmtest.c:436-476 | returns -1 iff no context is free; otherwise each of file, device, repeat and id is set by the last token naming it, and has its default when none does |
| Commands.PlayControl | audio-native/qdsp5/pcmtest.c:527-571 | returns -1 iff there is no session or no token, else 0; raises `quit` iff the build acts on commands and the token is `-cmd=stop` |
| Commands.RecControl | audio-native/qdsp5/pcmtest.c:573-593 | returns -1 iff there is no session or no token, else 0; raises `rec_stop` iff the token is `-cmd=stop` |
| PcmCapture.CheckCaptureParams | audio-native/qdsp5/pcmtest.c:280-300 | passes iff the channel mode is 1 or 2 and the rate is one of the nine listed rates; a bad channel mode is reported iff the mode is neither 1 nor 2 |
| PcmCapture.CaptureHeader | audio-native/qdsp5/pcmtest.c:302-314 | the built header has the RIFF/WAVE/fmt tags and the `data` tag, `fmt_sz` 16, PCM format, 16 bits, the requested rate and channels, `byte_rate = rate*ch*2`, `block_align = ch*2`, and both sizes 0 |
| PcmCapture.Finalize | audio-native/qdsp5/pcmtest.c:400-401 | `data_sz` becomes the total, `riff_sz` becomes total + 32 modulo 2^32, and every other field is unchanged |
| PcmCapture.CaptureHeaderPlayable | audio-native/qdsp5/pcmtest.c:302-314 | the player accepts the capture header and passes on exactly the requested rate and channel count with an empty data chunk; its byte rate and block alignment are consistent |
| PcmCapture.FinalizePlayable | audio-native/qdsp5/pcmtest.c:400-401 | finalizing keeps an accepted header accepted and passes on the new data size |
| PcmCapture.FinalizeLastWins | audio-native/qdsp5/pcmtest.c:400-401 | finalizing twice is the same as finalizing once with the later total |
| PcmCapture.RiffSizeShortByFour | audio-native/qdsp5/pcmtest.c:401 | without wrap-around, `riff_sz` is the length of header plus data less 12, 4 less than the RIFF chunk size |
| PcmCapture.TotalIsProduct | audio-native/qdsp5/pcmtest.c:394 | after k passes of `sz` bytes the running total is k*sz modulo 2^32 |
| PcmCapture.TotalNoWrap | audio-native/qdsp5/pcmtest.c:394 | without wrap-around the running total is exactly k*sz |
| PcmCapture.CapturedLength | audio-native/qdsp5/pcmtest.c:385-395 | after k successful passes the captured bytes number k*sz, and without wrap-around `total` equals that count |
| PcmCapture.Record | audio-native/qdsp5/pcmtest.c:385-395 | the loop succeeds iff every transfer read and stored exactly `sz` bytes; then `total` is the 32-bit running total and the file holds the header followed by every captured byte |
| PcmCapture.WavRec | audio-native/qdsp5/pcmtest.c:263-422 | bad parameters or an unopenable file return -1 with the file unchanged; an unopenable device returns -1 leaving the placeholder header; a failed configuration, an oversize buffer, a failed start, or a short read or write returns -1 and removes the file; otherwise returns 0 with the finalized header at offset 0 followed by all captured bytes |
| PcmCapture.CommittedPlays | audio-native/qdsp5/pcmtest.c:396-404 | without wrap-around, a committed recording is accepted by the player, which loads exactly the captured bytes at the recorded rate and channel count |

## Left out

- Device and file system calls (`open`, `read`, `write`, `lseek`,
  `close`, `unlink`, the ioctls) are not modelled as calls. Their outcomes
  are inputs, and only the negotiated `buffer_size` and `buffer_count` are
  kept from the configuration exchange.
- The rate and channel count that `pcm_play` and `wav_rec` put into the
  device configuration are not modelled. The driver's answer is an input.
- The header write at the start of `wav_rec` and the header rewrite at
  the end are taken to write all 44 bytes, because their return values are
  ignored in the source.
- Threads are not modelled: `pthread_create`, the thread bodies and
  `get_free_context`/`free_context`. A free context is a flag of
  `ReadPlayParams`. The cross-thread writes to `quit` and `rec_stop`
  are inputs: a per-iteration `quit` value, and the number of capture
  transfers before `rec_stop` is seen.
- The clearing of `quit` in `pcmplay_read_params` and of `rec_stop`
  after `AUDIO_START` is not modelled, because both flags are inputs.
- `sleep`, `printf`/`perror` and the `cntW` counter are not modelled,
  because they only affect timing and diagnostics.
- The `AUDIOV2`/`QC_PROP` session-id calls, `devmgr_register_session`,
  `devmgr_unregister_session` and the `-cmd=volume` path are not
  modelled, because they call code that is not part of this model. This
  includes the -1 that a failed unregister gives `pcm_play` in that build.
- `pcmrec_read_params` (recording options and their defaults), the help
  texts and `strtok` are not modelled. Play-option tokens are given as an
  already split list.
- `atoi` is not modelled: it is a parameter. `repeat--` on the most
  negative `int`, which overflows in C, is not modelled, because the model
  takes `atoi`'s result as an unbounded integer.
- `wav_play`'s check for a NULL `config` is not modelled, because the model
  always has a configuration record.
- The unbounded steady-state loop is modelled for at most `fuel`
  iterations. An endless session is represented by the `OutOfFuel`
  outcome, and nothing beyond the bound is modelled.
- The steady-state loop reads `quit` twice per iteration, once in the
  combined test with `fill` and once to choose between stopping and
  rewinding. The model reads a single value per iteration. It therefore
  does not capture the interleaving in which another thread sets `quit`
  between the two reads after the source is exhausted: the code then
  stops, while the model rewinds.
