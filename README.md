# Audio stream server: framing state machine and PCM-to-WAV encoder

A Dafny model of the core of a small Node.js server that takes audio from
remote devices over a WebSocket. Each device sends `START_OF_AUDIO_DATA`, then
its device id, then raw 16-bit little-endian PCM chunks, then
`END_OF_AUDIO_STREAM`. The server buffers the chunks per device, and at the
end it amplifies the samples by 15 with hard clipping. It wraps them in a
44-byte canonical RIFF/WAVE header (format code 1, linear PCM, mono, 6000 Hz,
16 bits) and uploads the file.

The model has four modules:

- `Wrappers` (wrappers.dfy): `Option`. `None` also stands for JavaScript's
  `undefined`.
- `Bytes` (bytes.dfy): the Node.js `Buffer` operations the code uses. These
  are the little-endian encoders, the reader `readInt16LE`, the in-place
  writes (`write`, `writeUInt16LE`, `writeUInt32LE`, `writeInt16LE`) and
  `Buffer.concat`. The code itself never reads a 16- or 32-bit unsigned
  field. The readers `ReadU16LE` and `ReadU32LE` exist so that the round-trip
  lemmas and the header layout lemmas can read the written fields back.
- `Wav` (wav.dfy): `convertPCMToWAV` up to the assembled `wavBuffer`. The
  method `ConvertPcmToWav` fills a fresh zero-initialised array in a loop with
  a step of 2. It then writes the header field by field into a 44-byte array,
  as the source does. It is proved equal to the declarative
  `WavFile(pcm) == Header(|pcm|) + Amplified(pcm)`. Lemmas about `WavFile`
  give the byte-exact header layout and the per-sample clamp.
- `Framing` (framing.dfy): the `message`, `close` and `error` handlers. The
  class `AudioStreamServer` holds the four module-level variables
  (`isStreaming`, `currentDeviceId`, `isDeviceIdReceived`,
  `deviceChunksMap`) and updates them in place. Each handler is proved to
  match the pure transition functions `Step` and `Reset`. `Run` folds `Step`
  and `Reset` over a sequence of events. The lemmas about `Step` and `Run`
  cover the protocol.

Modelling decisions:

- A message is its bytes. It is a sentinel exactly when its bytes equal the
  ASCII bytes of that sentinel.
- `currentDeviceId` is `Option<seq<byte>>`, initially `None`. The check at
  server.js:52 treats `undefined` and `""` as false; `IsTruthy` models that.
- The map's keys are `Option<seq<byte>>`, the value `currentDeviceId` held
  when the chunk was stored. JavaScript's `Map` accepts `undefined` as a key,
  so `Step` is total with no precondition. The invariant `Inv` shows that no
  stored key is ever `undefined`.
- `currentDeviceId` is never reset by START, END, `close` or `error`.
- END does not clear `isDeviceIdReceived`.
- The `message` handler is `async`, but it has no `await`. Each message is
  therefore handled to completion before the next, and `Step` models one
  message exactly.
- In `HandleMessage`, a returned recording takes the place of the call to
  `convertPCMToWAV` and the upload callback (server.js:60-67).
- `convertPCMToWAV` throws in two cases. When the concatenated chunks have
  odd length, `readInt16LE` at server.js:124 fails on the last half sample.
  When they hold more than 2^32 - 37 bytes, `writeUInt32LE(36 + dataSize, 4)`
  at server.js:135 fails because the value does not fit 32 bits. Either way
  the handler stops before `deviceChunksMap.delete` (server.js:70).
  `Wav.Encodable` names the inputs for which neither happens. The model
  follows the source: `Step` then turns streaming off, emits nothing and
  keeps the entry. So every recording that is emitted satisfies
  `Wav.Encodable`, which is exactly the encoder's precondition.

The model keeps these behaviours of the code as written:

- The state is global, shared by all connections, not per connection.
- END removes only the current device's entry. When the device id is empty,
  END removes nothing and the chunks stay until the next START, `close` or
  `error`.
- `close`/`error` keep `currentDeviceId`.
- END with a payload the encoder rejects (odd length, or too large) turns
  streaming off but keeps the entry.

## Model

| member | source | states |
|---|---|---|
| `Framing.AudioStreamServer.constructor` | server.js:28-31 | the four variables start as not streaming, id undefined, flag false, empty map; the invariant holds |
| `Framing.AudioStreamServer.HandleMessage` | server.js:36-98 | the new fields and the returned recording are exactly `Step` of the old fields and the message; the invariant is kept |
| `Framing.AudioStreamServer.HandleClose` | server.js:101-106 | streaming off, flag cleared, map emptied, device id untouched (`Reset`); the invariant is kept |
| `Framing.AudioStreamServer.HandleError` | server.js:108-113 | the same reset as `close` |
| `Framing.Step` | server.js:36-98 | every message handled from a state satisfying the invariant leads to one that satisfies it (keys only the current device id, no empty list, map non-empty only with the flag set, flag only with a defined id) |
| `Framing.Reset` | server.js:101-113 | the state after `close`/`error` satisfies the invariant |
| `Framing.InitialSatisfiesInv` | server.js:28-31 | the declared initial values satisfy the invariant |
| `Framing.HandlersPreserveInv` | server.js:36-113 | every event (message, close, error) from a state satisfying the invariant leads to one that satisfies it |
| `Framing.StartResets` | server.js:40-45 | START sets streaming, clears the flag, empties the map, keeps `currentDeviceId`, emits nothing |
| `Framing.OrdinaryMessage` | server.js:79-98 | non-sentinel message: no change when not streaming; becomes the device id (flag set, no chunk) when the flag is clear; otherwise appended at the end of the current device's list and nothing else changes; never emits |
| `Framing.EndOfStream` | server.js:49-74 | END stops streaming and keeps id and flag; it emits iff the id is truthy, has an entry, the entry is non-empty and its bytes are `Encodable` (even length, at most 2^32 - 37); the payload is the in-order concatenation; the entry is removed unless the id is falsy or the encoder threw |
| `Framing.EndOfStreamReachable` | server.js:49-74 | in a state satisfying the invariant, END emits iff a truthy id has an entry whose bytes are `Encodable`, and then the map is left empty |
| `Framing.EmittedPayloadIsEncodable` | server.js:58-70 | any recording a message emits has an even-length payload of at most 2^32 - 37 bytes: both of `ConvertPcmToWav`'s preconditions hold |
| `Framing.EndWithoutStart` | server.js:49-74 | END with an empty map only turns streaming off: no recording, no error, flag and id unchanged |
| `Framing.EndFirst` | server.js:28-74 | on a fresh server, END alone emits nothing and changes nothing |
| `Framing.ResetDropsPartialData` | server.js:101-113 | after `close`/`error`, nothing is buffered, streaming and flag are off, and an END emits nothing |
| `Framing.ChunksAccumulate` | server.js:87-97 | while streaming with the id known, ordinary messages are appended in arrival order to the current device's list and emit nothing |
| `Framing.IdleIgnores` | server.js:79 | when not streaming, any run of ordinary messages changes nothing and emits nothing |
| `Framing.StartThenId` | server.js:40-85 | START then an ordinary message (from any state) gives streaming on, that message as device id, flag set, empty map |
| `Framing.CompleteStream` | server.js:36-98 | START, id, chunks, END from any state emit exactly one recording `(id, concatenation of the chunks)` when id and chunks are non-empty and the bytes are `Encodable`, and none otherwise; the final state is given exactly |
| `Framing.BackToBackStreams` | server.js:36-98 | two complete streams in a row give two recordings, each with its own id and only its own chunks |
| `Framing.AbortedStream` | server.js:101-113 | START, id, chunks, then `close` or `error`, then any ordinary messages and an END: no recording at all |
| `Framing.RecordingKeepsItsDevice` | server.js:53-67 | the first recording of a complete stream names the stream's device, whatever events follow |
| `Framing.UploadedDeviceIdAsWritten` | server.js:64-67 | the device id the upload callback passes: `currentDeviceId` after the events handled before the file write completes |
| `Framing.UploadedDeviceIdCanBeStale` | server.js:64-67 | device a's stream is emitted, but the id the upload callback reads after device b's START and id is b |
| `Wav.ConvertPcmToWav` | server.js:115-148 | for an `Encodable` input, the result is the 44-byte header for that data size followed by the amplified samples (`WavFile`) |
| `Wav.AmplifyInto` | server.js:122-127 | the loop fills a fresh buffer of the input's length with the amplified, clipped samples |
| `Wav.WriteRiffDescriptor` | server.js:134-136 | bytes 0-11 become "RIFF", `36 + dataSize` as UInt32LE, "WAVE"; bytes 12-43 are unchanged |
| `Wav.WriteFmtPreamble` | server.js:137-140 | bytes 12-23 become "fmt ", 16, format 1, channel count; bytes 0-11 and 24-43 are unchanged |
| `Wav.WriteFmtRates` | server.js:141-144 | bytes 24-35 become sample rate, byte rate, block align, bit depth; bytes 0-23 and 36-43 are unchanged |
| `Wav.WriteDataPreamble` | server.js:145-146 | bytes 36-43 become "data" and the data size; bytes 0-35 are unchanged, so the whole buffer is given |
| `Wav.Clamp` | server.js:125 | the result is in [-32768, 32767]; equals the input inside that range, -32768 below it, 32767 above it |
| `Wav.AmplifySample` | server.js:125 | an amplified sample stays in the int16 range |
| `Wav.AmplifiedSample` | server.js:122-127 | the int16 read back at each even offset of the amplified buffer is `Clamp(15 * s)` for the input sample `s` there |
| `Wav.HeaderLayout` | server.js:129-146 | "RIFF"@0, 36+n@4, "WAVE"@8, "fmt "@12, 16@16, 1@20, 1@22, 6000@24, 12000@28, 2@32, 16@34, "data"@36, n@40, all little-endian |
| `Wav.WavLayout` | server.js:122-148 | output length is 44 + n; the first 44 bytes are the header; the int16 at 44+i is `Clamp(15 * s)` for the input sample `s` at i |
| `Wav.AmplifyExamples` | server.js:119-125 | 0 maps to 0, 1 to 15, 2 to 30, -1 to -15, 3000 to 32767, -3000 to -32768, 2184 to 32760, 2185 to 32767 |
| `Wav.EncodeExample` | server.js:115-148 | input bytes [1,0,2,0] give payload [15,0,30,0], data size 4 and RIFF size 40 |
| `Wav.Amplified` | server.js:122-127 | the amplified buffer has the input's length; `AmplifiedSample` gives its samples and `AmplifyInto` computes it |
| `Wav.Header` | server.js:129-146 | the header is 44 bytes; `HeaderLayout` gives each field at its offset |
| `Wav.WavFile` | server.js:122-148 | the file is 44 bytes longer than the input; `WavLayout` gives its header and samples, and `ConvertPcmToWav` computes it |
| `Wav.Encodable` | server.js:124-135 | the inputs on which `convertPCMToWAV` does not throw: even length and at most 2^32 - 37 bytes; `Step` and `ConvertPcmToWav` both use it |
| `Framing.IsTruthy` | server.js:52 | `currentDeviceId` is truthy iff it is defined and not the empty string |
| `Bytes.Ascii` | server.js:134-145 | the bytes `write` stores for an ASCII string, one per character |
| `Bytes.U16LE` | server.js:139-144 | the two bytes `writeUInt16LE` stores; `U16RoundTrip` reads the value back |
| `Bytes.U32LE` | server.js:135-146 | the four bytes `writeUInt32LE` stores; `U32RoundTrip` reads the value back |
| `Bytes.I16LE` | server.js:126 | the two bytes `writeInt16LE` stores, in two's complement; `I16RoundTrip` and `I16Canonical` make it the inverse of `ReadI16LE` |
| `Bytes.Concat` | server.js:60 | `Buffer.concat` (also at server.js:148): the chunks' bytes joined in list order; `ConcatAppend` and `ConcatEven` state its properties |
| `Bytes.ReadI16LE` | server.js:124 | the value is in [-32768, 32767] and is non-negative iff the high byte is below 0x80 |
| `Bytes.I16RoundTrip` | server.js:124-126 | reading back a written int16 gives the same value |
| `Bytes.I16Canonical` | server.js:124-126 | writing back a read int16 gives the same two bytes |
| `Bytes.U32RoundTrip` | server.js:135-146 | reading back a written UInt32LE gives the same value |
| `Bytes.U16RoundTrip` | server.js:139-144 | reading back a written UInt16LE gives the same value |
| `Bytes.ConcatAppend` | server.js:60 | the concatenation of two chunk lists joined is the concatenation of each, joined |
| `Bytes.ConcatEven` | server.js:60 | chunks of whole samples concatenate to whole samples |
| `Bytes.WriteInt16LE` | server.js:126 | the two bytes at the offset become the int16 encoding; every other byte is unchanged |
| `Bytes.WriteUInt32LE` | server.js:135 | the four bytes at the offset become the UInt32LE encoding; every other byte is unchanged |
| `Bytes.WriteUInt16LE` | server.js:139 | the two bytes at the offset become the UInt16LE encoding; every other byte is unchanged |
| `Bytes.WriteAscii` | server.js:134 | the string's ASCII bytes are stored at the offset; every other byte is unchanged |

## Left out

- HTTP/Express setup, the WebSocket server and `server.listen` (server.js:1-26, 209-213): network plumbing.
- Firebase initialisation, `uploadFileToStorage` and the `/files` listing endpoint (server.js:11-19, 159-207): calls into external storage.
- `fs.writeFile`, `fs.unlinkSync` and the callback wiring (server.js:150-156, 180): filesystem I/O. `ConvertPcmToWav` returns the bytes it would write.
- The UUID file name (server.js:62) and the `new Date()` timestamps (server.js:53, 89): nondeterministic. They have no effect on the state.
- Logging: no effect on the state.
- Several connections sharing the global state: one sequential stream of events is modelled. With several devices, their messages interleave in that one stream.
- UTF-8 decoding by `message.toString()` (server.js:37): a device id is kept as its raw bytes, not as the decoded string. The map key and `currentDeviceId` always come from the same message, so the lookups are the same either way.
- The chunk list is updated by replacing the map entry, not by `push` onto a shared array (server.js:97). `Buffer.concat` copies the chunks before anything else runs, so no aliasing of that array is observable.
- An encoder throw (odd length or oversize): the model covers the thrown `readInt16LE` or `writeUInt32LE` as "no recording, entry kept". It does not model the rejected promise of the `async` handler, which goes unhandled. Node.js 15 and later terminate the process on an unhandled rejection by default.
- `Wav.ConvertPcmToWav`: requires `Encodable` input. The two throwing inputs are modelled where the encoder is called: `Framing.Step` emits nothing for them and keeps the entry. The encoder does not return an error value of its own.
- The runtime's own limit on a `Buffer`'s length (`buffer.constants.MAX_LENGTH`, which differs between Node.js versions) is not modelled. `Buffer.concat` and `Buffer.alloc` would throw past it.

## Findings

| source | as written | input that shows it | evidently intended | confidence | as-written member | corrected member |
|---|---|---|---|---|---|---|
| server.js:64-67 | the write-complete callback passes the module-level variable `currentDeviceId` to `uploadFileToStorage`, reading it only after the file has been written | device a sends START, id a, one 2-byte chunk, END; before the file write completes, START and id b are handled; the file holding a's audio is uploaded with device id b | the upload carries the device id of the stream that produced the audio, captured at END like the timestamp | medium (not executed) | `Framing.UploadedDeviceIdCanBeStale` | `Framing.RecordingKeepsItsDevice` |

The model's recording carries the device id captured at END. That is the
corrected behaviour, and the rest of the model uses it.
