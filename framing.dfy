/**
 * The WebSocket stream-framing state machine of the audio server: the
 * `message` handler, which classifies each message against the two sentinels
 * and buffers audio chunks per device, and the `close`/`error` resets.
 */
module Framing {

  import opened Wrappers
  import opened Bytes
  import Wav

  /** The control messages, compared byte for byte (they are ASCII). */
  const StartOfAudioData: seq<byte> := Ascii("START_OF_AUDIO_DATA")
  const EndOfAudioStream: seq<byte> := Ascii("END_OF_AUDIO_STREAM")

  /** A message that is neither sentinel: a device id or an audio chunk, depending on the state. */
  predicate Ordinary(msg: seq<byte>)
  {
    msg != StartOfAudioData && msg != EndOfAudioStream
  }

  /** What end-of-stream hands to the encoder and upload: the device and its concatenated chunks. */
  datatype Recording = Recording(deviceId: seq<byte>, payload: seq<byte>)

  /**
   * `deviceChunksMap`: device id to the chunks received for it, oldest first.
   * Keys are whatever `currentDeviceId` held, so `None` (undefined) is a possible key.
   */
  type ChunkMap = map<Option<seq<byte>>, seq<seq<byte>>>

  /** The four module-level variables of the server. */
  datatype State = State(
    isStreaming: bool,
    currentDeviceId: Option<seq<byte>>,
    isDeviceIdReceived: bool,
    deviceChunksMap: ChunkMap)

  /** The values the variables are declared with. */
  const Initial: State := State(false, None, false, map[])

  /** JavaScript truthiness of `currentDeviceId`: neither undefined nor the empty string. */
  predicate IsTruthy(id: Option<seq<byte>>)
  {
    id.Some? && id.value != []
  }

  /**
   * What every handler keeps: chunks are only ever stored under the current
   * device id, each stored list holds at least one chunk, anything stored means
   * the device id was received, and a received device id is defined.
   */
  ghost predicate Inv(s: State)
  {
    && (forall k | k in s.deviceChunksMap :: k == s.currentDeviceId && s.deviceChunksMap[k] != [])
    && (s.deviceChunksMap != map[] ==> s.isDeviceIdReceived)
    && (s.isDeviceIdReceived ==> s.currentDeviceId.Some?)
  }

  /** The effect of one handler call: the new state and the recording it emits, if any. */
  datatype Transition = Transition(next: State, emitted: Option<Recording>)

  /** The chunks stored under `id`, or none. */
  function ChunksOf(m: ChunkMap, id: Option<seq<byte>>): seq<seq<byte>>
  {
    if id in m then m[id] else []
  }

  /** The `message` handler, as a function of the state before it. */
  function Step(s: State, msg: seq<byte>): (t: Transition)
    ensures Inv(s) ==> Inv(t.next)
  {
    if msg == StartOfAudioData then
      Transition(s.(isStreaming := true, isDeviceIdReceived := false, deviceChunksMap := map[]), None)
    else if msg == EndOfAudioStream then
      var id := s.currentDeviceId;
      if IsTruthy(id) && id in s.deviceChunksMap then
        var chunks := s.deviceChunksMap[id];
        if |chunks| > 0 && !Wav.Encodable(Concat(chunks)) then
          // `convertPCMToWAV` throws (a trailing half sample, or a RIFF size past 32 bits) before the entry is deleted
          Transition(s.(isStreaming := false), None)
        else
          Transition(
            s.(isStreaming := false, deviceChunksMap := s.deviceChunksMap - {id}),
            if |chunks| > 0 then Some(Recording(id.value, Concat(chunks))) else None)
      else
        Transition(s.(isStreaming := false), None)
    else if !s.isStreaming then
      Transition(s, None)
    else if !s.isDeviceIdReceived then
      Transition(s.(currentDeviceId := Some(msg), isDeviceIdReceived := true), None)
    else
      var id := s.currentDeviceId;
      Transition(s.(deviceChunksMap := s.deviceChunksMap[id := ChunksOf(s.deviceChunksMap, id) + [msg]]), None)
  }

  /** The `close` and `error` handlers: both stop streaming and drop every buffered chunk. */
  function Reset(s: State): (r: State)
    ensures Inv(r)
  {
    s.(isStreaming := false, isDeviceIdReceived := false, deviceChunksMap := map[])
  }

  /** One event on the connection. */
  datatype Event = Message(data: seq<byte>) | Closed | Errored

  function Apply(s: State, e: Event): Transition
  {
    match e
    case Message(data) => Step(s, data)
    case Closed => Transition(Reset(s), None)
    case Errored => Transition(Reset(s), None)
  }

  /** The final state and the recordings, in order, after a sequence of events. */
  datatype Trace = Trace(final: State, recordings: seq<Recording>)

  /** The trace of `events` from `s`, each event taking the state one step by `apply`. */
  function Fold(apply: (State, Event) -> Transition, s: State, events: seq<Event>): Trace
    decreases |events|
  {
    if events == [] then Trace(s, [])
    else
      var t := apply(s, events[0]);
      var rest := Fold(apply, t.next, events[1..]);
      Trace(rest.final, (if t.emitted.Some? then [t.emitted.value] else []) + rest.recordings)
  }

  /** The handlers run over a sequence of events. */
  function Run(s: State, events: seq<Event>): Trace
  {
    Fold(Apply, s, events)
  }

  /** Messages as events. */
  function Messages(msgs: seq<seq<byte>>): seq<Event>
  {
    seq(|msgs|, i requires 0 <= i < |msgs| => Message(msgs[i]))
  }

  predicate AllOrdinary(msgs: seq<seq<byte>>)
  {
    forall i | 0 <= i < |msgs| :: Ordinary(msgs[i])
  }

  // ---------------------------------------------------------------------------
  // One message at a time
  // ---------------------------------------------------------------------------

  /** START turns streaming on, forgets the device-id flag and every chunk, and keeps `currentDeviceId`. */
  lemma StartResets(s: State)
    ensures Step(s, StartOfAudioData) == Transition(State(true, s.currentDeviceId, false, map[]), None)
  {
  }

  /** An ordinary message: ignored when idle, taken as the device id first, appended as a chunk after. */
  lemma OrdinaryMessage(s: State, msg: seq<byte>)
    requires Ordinary(msg)
    ensures Step(s, msg).emitted == None
    ensures !s.isStreaming ==> Step(s, msg).next == s
    ensures s.isStreaming && !s.isDeviceIdReceived ==>
      Step(s, msg).next == s.(currentDeviceId := Some(msg), isDeviceIdReceived := true)
    ensures s.isStreaming && s.isDeviceIdReceived ==>
      var id := s.currentDeviceId;
      Step(s, msg).next == s.(deviceChunksMap := s.deviceChunksMap[id := ChunksOf(s.deviceChunksMap, id) + [msg]])
  {
  }

  /**
   * END turns streaming off and removes the current device's entry; it emits a
   * recording exactly when the device id is truthy and has a non-empty entry
   * whose bytes the encoder accepts, and the recording is that device's chunks
   * concatenated in arrival order. When the bytes end in half a sample, or are
   * too many for the header's size field, the encoder throws first, and the
   * entry stays.
   */
  lemma EndOfStream(s: State)
    ensures var t := Step(s, EndOfAudioStream);
      var id := s.currentDeviceId;
      var m := s.deviceChunksMap;
      var complete := IsTruthy(id) && id in m && |m[id]| > 0;
      && !t.next.isStreaming
      && t.next.currentDeviceId == id
      && t.next.isDeviceIdReceived == s.isDeviceIdReceived
      && (t.emitted.Some? <==> complete && Wav.Encodable(Concat(m[id])))
      && (t.emitted.Some? ==> t.emitted.value == Recording(id.value, Concat(m[id])))
      && t.next.deviceChunksMap ==
           (if IsTruthy(id) && !(complete && !Wav.Encodable(Concat(m[id]))) then m - {id} else m)
  {
    assert StartOfAudioData[0] != EndOfAudioStream[0];
  }

  /**
   * In a reachable state, END emits exactly when a truthy device id has bytes
   * stored that the encoder accepts, and then leaves no chunk behind.
   */
  lemma EndOfStreamReachable(s: State)
    requires Inv(s)
    ensures var t := Step(s, EndOfAudioStream);
      var id := s.currentDeviceId;
      && (t.emitted.Some? <==> IsTruthy(id) && id in s.deviceChunksMap && Wav.Encodable(Concat(s.deviceChunksMap[id])))
      && (t.emitted.Some? ==> t.next.deviceChunksMap == map[])
  {
    EndOfStream(s);
    var m := s.deviceChunksMap;
    var id := s.currentDeviceId;
    if id in m {
      assert m - {id} == map[] by {
        forall k | k in m ensures k == id {}
      }
    }
  }

  /** Every recording a message emits is one the encoder accepts: whole 16-bit samples, and a size its header can hold. */
  lemma EmittedPayloadIsEncodable(s: State, msg: seq<byte>)
    ensures Step(s, msg).emitted.Some? ==> Wav.Encodable(Step(s, msg).emitted.value.payload)
  {
    if msg == EndOfAudioStream {
      EndOfStream(s);
    }
  }

  /** END before any START (no chunk stored) emits nothing and touches neither the flag nor the device id. */
  lemma EndWithoutStart(s: State)
    requires s.deviceChunksMap == map[]
    ensures Step(s, EndOfAudioStream) == Transition(s.(isStreaming := false), None)
  {
    EndOfStream(s);
  }

  /** `close` and `error` leave nothing that a later END could emit. */
  lemma ResetDropsPartialData(s: State)
    ensures var r := Reset(s);
      && !r.isStreaming && !r.isDeviceIdReceived && r.deviceChunksMap == map[]
      && r.currentDeviceId == s.currentDeviceId
      && Step(r, EndOfAudioStream).emitted == None
  {
    EndWithoutStart(Reset(s));
  }

  /** The variables' declared values satisfy the invariant. */
  lemma InitialSatisfiesInv()
    ensures Inv(Initial)
  {
  }

  /** Every handler keeps the invariant. */
  lemma HandlersPreserveInv(s: State, e: Event)
    requires Inv(s)
    ensures Inv(Apply(s, e).next)
  {
  }

  // ---------------------------------------------------------------------------
  // Sequences of messages
  // ---------------------------------------------------------------------------

  /** Folding two event sequences one after the other. */
  lemma {:induction false} FoldAppend(apply: (State, Event) -> Transition, s: State, a: seq<Event>, b: seq<Event>)
    ensures Fold(apply, s, a + b).final == Fold(apply, Fold(apply, s, a).final, b).final
    ensures Fold(apply, s, a + b).recordings == Fold(apply, s, a).recordings + Fold(apply, Fold(apply, s, a).final, b).recordings
    decreases |a|
  {
    if a == [] {
      assert a + b == b;
    } else {
      assert (a + b)[0] == a[0];
      assert (a + b)[1..] == a[1..] + b;
      FoldAppend(apply, apply(s, a[0]).next, a[1..], b);
    }
  }

  /** Running two event sequences one after the other. */
  lemma RunAppend(s: State, a: seq<Event>, b: seq<Event>)
    ensures Run(s, a + b).final == Run(Run(s, a).final, b).final
    ensures Run(s, a + b).recordings == Run(s, a).recordings + Run(Run(s, a).final, b).recordings
  {
    FoldAppend(Apply, s, a, b);
  }

  /** While the device id is known, ordinary messages are appended, in order, to its list. */
  lemma {:induction false} ChunksAccumulate(s: State, chunks: seq<seq<byte>>)
    requires s.isStreaming && s.isDeviceIdReceived
    requires AllOrdinary(chunks)
    ensures var id := s.currentDeviceId;
      Run(s, Messages(chunks)) == Trace(
        if chunks == [] then s
        else s.(deviceChunksMap := s.deviceChunksMap[id := ChunksOf(s.deviceChunksMap, id) + chunks]),
        [])
    decreases |chunks|
  {
    if chunks != [] {
      var id := s.currentDeviceId;
      var before := ChunksOf(s.deviceChunksMap, id);
      var s1 := Step(s, chunks[0]).next;
      OrdinaryMessage(s, chunks[0]);
      assert s1 == s.(deviceChunksMap := s.deviceChunksMap[id := before + [chunks[0]]]);
      assert Messages(chunks)[1..] == Messages(chunks[1..]);
      ChunksAccumulate(s1, chunks[1..]);
      assert Run(s, Messages(chunks)) == Run(s1, Messages(chunks[1..]));
      assert ChunksOf(s1.deviceChunksMap, id) == before + [chunks[0]];
      assert (before + [chunks[0]]) + chunks[1..] == before + chunks;
      if chunks[1..] == [] {
        assert [chunks[0]] == chunks;
      } else {
        assert s1.deviceChunksMap[id := before + chunks] == s.deviceChunksMap[id := before + chunks];
      }
    }
  }

  /** While not streaming, ordinary messages change nothing. */
  lemma {:induction false} IdleIgnores(s: State, msgs: seq<seq<byte>>)
    requires !s.isStreaming
    requires AllOrdinary(msgs)
    ensures Run(s, Messages(msgs)) == Trace(s, [])
    decreases |msgs|
  {
    if msgs != [] {
      OrdinaryMessage(s, msgs[0]);
      assert Messages(msgs)[1..] == Messages(msgs[1..]);
      IdleIgnores(s, msgs[1..]);
    }
  }

  lemma MessagesAppend(a: seq<seq<byte>>, b: seq<seq<byte>>)
    ensures Messages(a + b) == Messages(a) + Messages(b)
  {
  }

  /** A single event. */
  lemma RunOne(s: State, e: Event)
    ensures Run(s, [e]) == Trace(Apply(s, e).next, if Apply(s, e).emitted.Some? then [Apply(s, e).emitted.value] else [])
  {
    assert [e][1..] == [];
    assert Fold(Apply, Apply(s, e).next, []) == Trace(Apply(s, e).next, []);
  }

  /** START then an ordinary message: streaming, with that message as the device id and no chunk. */
  lemma StartThenId(s: State, id: seq<byte>)
    requires Ordinary(id)
    ensures Run(s, Messages([StartOfAudioData, id])) == Trace(State(true, Some(id), true, map[]), [])
  {
    var es := Messages([StartOfAudioData, id]);
    assert es == [Message(StartOfAudioData), Message(id)];
    var s0 := Step(s, StartOfAudioData).next;
    assert s0 == State(true, s.currentDeviceId, false, map[]);
    assert Step(s0, id) == Transition(State(true, Some(id), true, map[]), None);
    assert es[1..] == [Message(id)];
    RunOne(s0, Message(id));
  }

  /** START, a device id, the chunks, END. */
  function Stream(id: seq<byte>, chunks: seq<seq<byte>>): seq<Event>
  {
    Messages([StartOfAudioData, id] + chunks + [EndOfAudioStream])
  }

  /** The state a stream has reached just before its END. */
  function Buffered(id: seq<byte>, chunks: seq<seq<byte>>): State
  {
    State(true, Some(id), true, if chunks == [] then map[] else map[Some(id) := chunks])
  }

  /** The END of a stream whose device id and chunks are known. */
  lemma EndAfterChunks(id: seq<byte>, chunks: seq<seq<byte>>)
    ensures var whole := Wav.Encodable(Concat(chunks));
      Step(Buffered(id, chunks), EndOfAudioStream) == Transition(
        State(false, Some(id), true,
          if chunks == [] || (id != [] && whole) then map[] else map[Some(id) := chunks]),
        if id != [] && chunks != [] && whole then Some(Recording(id, Concat(chunks))) else None)
  {
    var s := Buffered(id, chunks);
    EndOfStream(s);
    if chunks != [] && id != [] {
      assert map[Some(id) := chunks] - {Some(id)} == map[];
    }
  }

  /**
   * From any state, a complete stream emits one recording holding the device id
   * and the chunks concatenated in arrival order; it emits none when the id is
   * empty, when no chunk came, or when the encoder rejects the bytes. Streaming
   * is off afterwards, and the chunks stay buffered only in those last cases.
   */
  lemma CompleteStream(s: State, id: seq<byte>, chunks: seq<seq<byte>>)
    requires Ordinary(id) && AllOrdinary(chunks)
    ensures var tr := Run(s, Stream(id, chunks));
      var whole := Wav.Encodable(Concat(chunks));
      && tr.recordings == (if id != [] && chunks != [] && whole then [Recording(id, Concat(chunks))] else [])
      && tr.final == State(false, Some(id), true,
           if chunks == [] || (id != [] && whole) then map[] else map[Some(id) := chunks])
  {
    var head, body, tail := Messages([StartOfAudioData, id]), Messages(chunks), Messages([EndOfAudioStream]);
    MessagesAppend([StartOfAudioData, id], chunks);
    MessagesAppend([StartOfAudioData, id] + chunks, [EndOfAudioStream]);
    assert Stream(id, chunks) == head + body + tail;
    StartThenId(s, id);
    var s1 := State(true, Some(id), true, map[]);
    ChunksAccumulate(s1, chunks);
    assert ChunksOf(s1.deviceChunksMap, Some(id)) + chunks == chunks;
    assert Run(s1, body) == Trace(Buffered(id, chunks), []);
    RunAppend(s, head, body);
    RunAppend(s, head + body, tail);
    assert tail == [Message(EndOfAudioStream)];
    RunOne(Buffered(id, chunks), Message(EndOfAudioStream));
    EndAfterChunks(id, chunks);
  }

  /** Two complete streams back to back give two recordings, each with only its own chunks. */
  lemma BackToBackStreams(s: State, id1: seq<byte>, chunks1: seq<seq<byte>>, id2: seq<byte>, chunks2: seq<seq<byte>>)
    requires Ordinary(id1) && AllOrdinary(chunks1) && id1 != [] && chunks1 != [] && Wav.Encodable(Concat(chunks1))
    requires Ordinary(id2) && AllOrdinary(chunks2) && id2 != [] && chunks2 != [] && Wav.Encodable(Concat(chunks2))
    ensures Run(s, Stream(id1, chunks1) + Stream(id2, chunks2)).recordings
      == [Recording(id1, Concat(chunks1)), Recording(id2, Concat(chunks2))]
  {
    RunAppend(s, Stream(id1, chunks1), Stream(id2, chunks2));
    CompleteStream(s, id1, chunks1);
    CompleteStream(Run(s, Stream(id1, chunks1)).final, id2, chunks2);
  }

  /**
   * A connection that closes (or fails) in the middle of a stream emits nothing,
   * and nothing it sent can come out later: ordinary messages and an END that
   * follow emit nothing either.
   */
  lemma AbortedStream(s: State, id: seq<byte>, chunks: seq<seq<byte>>, abort: Event, later: seq<seq<byte>>)
    requires abort == Closed || abort == Errored
    requires Ordinary(id) && AllOrdinary(chunks) && AllOrdinary(later)
    ensures Run(s, Messages([StartOfAudioData, id] + chunks) + [abort] + Messages(later + [EndOfAudioStream])).recordings == []
  {
    var head, body := Messages([StartOfAudioData, id]), Messages(chunks);
    MessagesAppend([StartOfAudioData, id], chunks);
    StartThenId(s, id);
    ChunksAccumulate(State(true, Some(id), true, map[]), chunks);
    RunAppend(s, head, body);
    var r := Reset(Run(s, head + body).final);
    RunOne(Run(s, head + body).final, abort);
    RunAppend(s, head + body, [abort]);
    IdleIgnores(r, later);
    MessagesAppend(later, [EndOfAudioStream]);
    RunAppend(r, Messages(later), Messages([EndOfAudioStream]));
    assert Messages([EndOfAudioStream]) == [Message(EndOfAudioStream)];
    RunOne(r, Message(EndOfAudioStream));
    ResetDropsPartialData(Run(s, head + body).final);
    RunAppend(s, head + body + [abort], Messages(later + [EndOfAudioStream]));
  }

  /**
   * The device id the upload is given, as written: the callback passed to the
   * encoder reads the variable `currentDeviceId` only once the WAV file has been
   * written, by which time the events `pending` may have been handled.
   */
  function UploadedDeviceIdAsWritten(atEnd: State, pending: seq<Event>): Option<seq<byte>>
  {
    Run(atEnd, pending).final.currentDeviceId
  }

  /**
   * Device `a` completes a stream; device `b` sends START and its id before the
   * WAV file of `a` is written; the upload of `a`'s recording is tagged `b`.
   */
  lemma UploadedDeviceIdCanBeStale(a: seq<byte>, b: seq<byte>, chunk: seq<byte>)
    requires Ordinary(a) && Ordinary(b) && Ordinary(chunk)
    requires a != [] && a != b && Wav.Encodable(chunk)
    ensures var first := Run(Initial, Stream(a, [chunk]));
      && first.recordings == [Recording(a, chunk)]
      && UploadedDeviceIdAsWritten(first.final, Messages([StartOfAudioData, b])) == Some(b)
      && UploadedDeviceIdAsWritten(first.final, Messages([StartOfAudioData, b])) != Some(a)
  {
    assert [chunk][1..] == [];
    assert Concat([chunk]) == chunk;
    CompleteStream(Initial, a, [chunk]);
    StartThenId(Run(Initial, Stream(a, [chunk])).final, b);
  }

  /**
   * A recording carries the device id captured at its END, whatever events come
   * after it.
   */
  lemma RecordingKeepsItsDevice(s: State, id: seq<byte>, chunks: seq<seq<byte>>, later: seq<Event>)
    requires Ordinary(id) && AllOrdinary(chunks) && id != [] && chunks != [] && Wav.Encodable(Concat(chunks))
    ensures var recs := Run(s, Stream(id, chunks) + later).recordings;
      |recs| > 0 && recs[0] == Recording(id, Concat(chunks))
  {
    RunAppend(s, Stream(id, chunks), later);
    CompleteStream(s, id, chunks);
  }

  /** Fresh server: END alone emits nothing and changes nothing. */
  lemma EndFirst()
    ensures Run(Initial, Messages([EndOfAudioStream])) == Trace(Initial, [])
  {
    assert Messages([EndOfAudioStream]) == [Message(EndOfAudioStream)];
    RunOne(Initial, Message(EndOfAudioStream));
    EndWithoutStart(Initial);
  }

  // ---------------------------------------------------------------------------
  // The server's module-level state, updated in place by the handlers
  // ---------------------------------------------------------------------------

  class AudioStreamServer {
    var isStreaming: bool
    var currentDeviceId: Option<seq<byte>>
    var isDeviceIdReceived: bool
    var deviceChunksMap: ChunkMap

    ghost function Current(): State
      reads this
    {
      State(isStreaming, currentDeviceId, isDeviceIdReceived, deviceChunksMap)
    }

    ghost predicate Valid()
      reads this
    {
      Inv(Current())
    }

    constructor ()
      ensures Valid() && Current() == Initial
    {
      isStreaming := false;
      currentDeviceId := None;
      isDeviceIdReceived := false;
      deviceChunksMap := map[];
    }

    /** `ws.on("message")`: handles one message; returns the recording an END completes. */
    method HandleMessage(msg: seq<byte>) returns (recording: Option<Recording>)
      requires Valid()
      modifies this
      ensures Valid()
      ensures Transition(Current(), recording) == Step(old(Current()), msg)
    {
      recording := None;
      if msg == StartOfAudioData {
        isStreaming := true;
        isDeviceIdReceived := false;
        deviceChunksMap := map[];
        return;
      }

      if msg == EndOfAudioStream {
        isStreaming := false;
        if IsTruthy(currentDeviceId) && currentDeviceId in deviceChunksMap {
          var chunks := deviceChunksMap[currentDeviceId];
          if |chunks| > 0 {
            var payload := Concat(chunks);
            if !Wav.Encodable(payload) {
              // the encoder throws: the handler stops here
              return;
            }
            recording := Some(Recording(currentDeviceId.value, payload));
          }
          deviceChunksMap := deviceChunksMap - {currentDeviceId};
        }
        return;
      }

      if isStreaming {
        if !isDeviceIdReceived {
          currentDeviceId := Some(msg);
          isDeviceIdReceived := true;
          return;
        }
        if currentDeviceId !in deviceChunksMap {
          deviceChunksMap := deviceChunksMap[currentDeviceId := []];
        }
        var chunks := deviceChunksMap[currentDeviceId];
        deviceChunksMap := deviceChunksMap[currentDeviceId := chunks + [msg]];
      }
    }

    /** `ws.on("close")`. */
    method HandleClose()
      requires Valid()
      modifies this
      ensures Valid()
      ensures Current() == Reset(old(Current()))
    {
      isStreaming := false;
      isDeviceIdReceived := false;
      deviceChunksMap := map[];
    }

    /** `ws.on("error")`. */
    method HandleError()
      requires Valid()
      modifies this
      ensures Valid()
      ensures Current() == Reset(old(Current()))
    {
      isStreaming := false;
      isDeviceIdReceived := false;
      deviceChunksMap := map[];
    }
  }
}
