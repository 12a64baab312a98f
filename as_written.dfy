/** Two places where cypher-server/index.js, read as written, does something
    other than what the rest of the code and its own checks evidently intend.
    Each is modelled here as written, next to a statement of what goes wrong;
    the Room module models the intended behaviour. */
module AsWritten {
  import opened Wrappers
  import opened Payload
  import opened Room

  /** A normalised beat as the plain object `{ url, videoId, source }`. */
  function BeatObject(b: Beat): JsValue
  {
    Obj(map["url" := Str(b.url), "videoId" := Str(b.videoId), "source" := Str(b.source)])
  }

  /** Whether `add_beat` as written accepts a submission (index.js:96-119):
      the payload normalises, the queue, which already holds the raw payload,
      is below the cap, and the connection is out of its cooldown. */
  predicate AcceptedAsWritten(queueLength: nat, payload: JsValue, lastEnqueueAt: int, now: int)
  {
    NormalizeBeatPayload(payload).Some? && queueLength + 1 < MaxQueueLength &&
    now - lastEnqueueAt >= EnqueueCooldownMs
  }

  /** The queue after index.js:94-122 of `add_beat` as written: the raw
      payload is pushed before any check (index.js:94), and an accepted
      payload is then pushed a second time in normalised form (index.js:121). */
  function AddBeatQueueAsWritten(queue: seq<JsValue>, payload: JsValue, lastEnqueueAt: int, now: int): (r: seq<JsValue>)
    ensures |r| > |queue| && r[..|queue| + 1] == queue + [payload]
    ensures AcceptedAsWritten(|queue|, payload, lastEnqueueAt, now) ==>
      r == queue + [payload, BeatObject(NormalizeBeatPayload(payload).value)]
    ensures !AcceptedAsWritten(|queue|, payload, lastEnqueueAt, now) ==> r == queue + [payload]
  {
    var pushed := queue + [payload];
    var beat := NormalizeBeatPayload(payload);
    if beat.None? then pushed
    else if |pushed| >= MaxQueueLength then pushed
    else if now - lastEnqueueAt < EnqueueCooldownMs then pushed
    else pushed + [BeatObject(beat.value)]
  }

  /** A payload the server refuses with `invalid_beat_payload` still ends up
      in the queue as written, where the admission decision Room.Admit leaves
      the queue untouched. */
  lemma RejectedPayloadStillQueued(queue: seq<JsValue>, payload: JsValue, lastEnqueueAt: int, now: int)
    requires NormalizeBeatPayload(payload).None?
    ensures Admit(payload, |queue|, lastEnqueueAt, now) == Err(InvalidBeatPayload)
    ensures AddBeatQueueAsWritten(queue, payload, lastEnqueueAt, now) == queue + [payload]
  {
  }

  /** The concrete case: `add_beat(null)` on an empty queue answers
      `invalid_beat_payload` and leaves `[null]` in the queue. */
  lemma NullPayloadQueued()
    ensures NormalizeBeatPayload(Null) == None
    ensures AddBeatQueueAsWritten([], Null, 0, 10000) == [Null]
  {
  }

  /** JavaScript truthiness of the values modelled here: `undefined`, `null`,
      `false`, `0` and `""` are falsy, everything else is truthy. */
  predicate Truthy(v: JsValue)
  {
    !(v == Undefined || v == Null || v == Bool(false) || v == Number(0) || v == Str(""))
  }

  /** The `room` of a server running `add_beat` as written: the queue may hold
      raw, unvalidated payloads, `current` is `room.currentBeat` (`Null` when
      idle) and `startedAt` is `room.startedAt` (`Null` or a `Number`). */
  datatype RawRoom = RawRoom(queue: seq<JsValue>, current: JsValue, startedAt: JsValue)

  /** The whole of `add_beat` as written (index.js:93-126): the queue of
      index.js:94-122, then, when the submission is accepted and
      `!room.currentBeat` holds (index.js:124), the unconditional `startNext`
      shifts the HEAD of that queue into play and stamps the clock
      (index.js:171-172), whatever that head is. */
  function AddBeatAsWritten(room: RawRoom, payload: JsValue, lastEnqueueAt: int, now: int): (r: RawRoom)
    ensures !AcceptedAsWritten(|room.queue|, payload, lastEnqueueAt, now) ==>
      r.current == room.current && r.startedAt == room.startedAt && r.queue == room.queue + [payload]
    ensures AcceptedAsWritten(|room.queue|, payload, lastEnqueueAt, now) && Truthy(room.current) ==>
      r.current == room.current && r.startedAt == room.startedAt &&
      r.queue == room.queue + [payload, BeatObject(NormalizeBeatPayload(payload).value)]
    ensures AcceptedAsWritten(|room.queue|, payload, lastEnqueueAt, now) && !Truthy(room.current) ==>
      var pushed := room.queue + [payload, BeatObject(NormalizeBeatPayload(payload).value)];
      r.current == pushed[0] && r.startedAt == Number(now) && r.queue == pushed[1..]
  {
    var q := AddBeatQueueAsWritten(room.queue, payload, lastEnqueueAt, now);
    if AcceptedAsWritten(|room.queue|, payload, lastEnqueueAt, now) && !Truthy(room.current) then
      RawRoom(q[1..], q[0], Number(now))
    else RawRoom(q, room.current, room.startedAt)
  }

  /** On an idle, empty room an accepted submission starts playing the RAW
      payload (un-normalised, possibly with surrounding whitespace or extra
      fields), while its normalised copy waits in the queue, so the same beat
      plays twice, where the intended Room.RoomCoordinator.Accept plays only
      the normalised beat and leaves the queue empty. */
  lemma IdleRoomPlaysRawPayload(payload: JsValue, now: int)
    requires NormalizeBeatPayload(payload).Some? && now >= EnqueueCooldownMs
    ensures Admit(payload, 0, 0, now) == Ok(NormalizeBeatPayload(payload).value)
    ensures AddBeatAsWritten(RawRoom([], Null, Null), payload, 0, now)
         == RawRoom([BeatObject(NormalizeBeatPayload(payload).value)], payload, Number(now))
  {
  }

  /** On an idle room whose queue still holds a rejected `null`: a valid
      submission starts the `null`, not itself, so the room has a start time
      but no beat (`currentBeat` null while `startedAt` is set), and is still
      idle for index.js:124, where the intended room keeps
      `currentBeat == None <==> startedAt == None` (Room.RoomCoordinator.Valid). */
  lemma RejectedNullStartsPlaying(payload: JsValue, now: int)
    requires NormalizeBeatPayload(payload).Some? && now >= EnqueueCooldownMs
    ensures AddBeatAsWritten(RawRoom([], Null, Null), Null, 0, now) == RawRoom([Null], Null, Null)
    ensures
      var r := AddBeatAsWritten(RawRoom([Null], Null, Null), payload, 0, now);
      r == RawRoom([payload, BeatObject(NormalizeBeatPayload(payload).value)], Null, Number(now)) &&
      !Truthy(r.current) && r.startedAt.Number?
  {
  }

  /** `skip` as written (index.js:128-135) with the first call read as
      unconditional: two transitions in a row, the second one guarded by the
      state the first has just produced, so it always proceeds too. */
  method SkipAsWritten(room: RoomCoordinator, now: int)
    requires room.Valid()
    modifies room
    ensures room.Valid()
    ensures |old(room.queue)| >= 2 ==>
      room.currentBeat == Some(old(room.queue)[1]) && room.queue == old(room.queue)[2..]
    ensures |old(room.queue)| == 1 ==> room.currentBeat == None && room.queue == []
  {
    room.StartNext(None, now);
    var expected := room.CurrentExpectation();
    room.StartNext(expected, now);
  }

  /** A client of the room: a beat plays with two more queued behind it, and
      one skip as written lands on the second of them, so the first queued
      beat never plays; the intended Skip lands on the first. */
  method SkipPassesOverNextBeat() returns (asWritten: Option<Beat>, intended: Option<Beat>)
    ensures asWritten == Some(Beat("c", "c", "c"))
    ensures intended == Some(Beat("b", "b", "b"))
  {
    var a, b, c := Beat("a", "a", "a"), Beat("b", "b", "b"), Beat("c", "c", "c");
    var room := new RoomCoordinator();
    room.queue, room.currentBeat, room.startedAt := [b, c], Some(a), Some(0);
    SkipAsWritten(room, 1);
    asWritten := room.currentBeat;

    var other := new RoomCoordinator();
    other.queue, other.currentBeat, other.startedAt := [b, c], Some(a), Some(0);
    other.Skip(1);
    intended := other.currentBeat;
  }
}
