/** The authoritative room of the server (cypher-server/index.js): the shared
    queue, the beat playing now and since when, the re-entrancy flag of the
    playback transition, and the two per-connection tables. Every socket event
    handler is a method; what `io.emit` and `socket.emit` send is appended to
    `outbox`, and `Date.now()` is the `now` parameter. */
module Room {
  import opened Wrappers
  import opened Payload

  /** A socket.io connection id. */
  type ConnId = string

  const MaxUsernameLength: nat := 24
  const MaxQueueLength: nat := 100
  const EnqueueCooldownMs: nat := 1500

  /** A presence entry. The colour is a random HSL string, taken as given. */
  datatype User = User(id: ConnId, name: string, color: string)

  datatype Recipient = Everyone | Only(id: ConnId)

  /** The `details` spread into a `payload_error`. */
  datatype ErrorDetail =
    | MaxLength(maxLength: nat)
    | RequiredFields(fields: seq<string>)
    | MaxQueue(maxQueueLength: nat)
    | Cooldown(cooldownMs: nat)

  datatype Message =
    | PresenceUpdate(users: map<ConnId, User>)
    | RoomState(queue: seq<Beat>, currentBeat: Option<Beat>, roomStartedAt: Option<int>, transitionLock: bool)
    | BeatStart(beat: Beat, beatStartedAt: int)
    | PayloadError(action: string, reason: string, detail: ErrorDetail)
    | Sync(syncStartedAt: Option<int>)

  datatype Event = Event(to: Recipient, msg: Message)

  /** The `{ videoId, startedAt }` a transition may be conditioned on. */
  datatype Expected = Expected(videoId: JsValue, startedAt: JsValue)

  /** Why `add_beat` refuses a submission. */
  datatype Rejection = InvalidBeatPayload | QueueFull | CooldownActive

  function ReasonCode(r: Rejection): string
  {
    match r
    case InvalidBeatPayload => "invalid_beat_payload"
    case QueueFull => "queue_full"
    case CooldownActive => "cooldown_active"
  }

  function ReasonDetail(r: Rejection): ErrorDetail
  {
    match r
    case InvalidBeatPayload => RequiredFields(["url", "videoId", "source"])
    case QueueFull => MaxQueue(MaxQueueLength)
    case CooldownActive => Cooldown(EnqueueCooldownMs)
  }

  /** `lastEnqueueAtByUser[id] || 0`. */
  function LastEnqueueAt(throttle: map<ConnId, int>, id: ConnId): int
  {
    if id in throttle then throttle[id] else 0
  }

  /** The admission decision of `add_beat`, taken before anything is changed:
      first the payload, then the cap, then the per-connection cooldown. */
  function Admit(payload: JsValue, queueLength: nat, lastEnqueueAt: int, now: int): (r: Result<Beat, Rejection>)
    ensures r == Err(InvalidBeatPayload) <==> NormalizeBeatPayload(payload).None?
    ensures r == Err(QueueFull) <==>
      NormalizeBeatPayload(payload).Some? && queueLength >= MaxQueueLength
    ensures r == Err(CooldownActive) <==>
      NormalizeBeatPayload(payload).Some? && queueLength < MaxQueueLength &&
      now - lastEnqueueAt < EnqueueCooldownMs
    ensures r.Ok? ==> Some(r.value) == NormalizeBeatPayload(payload) && IsNormalizedBeat(r.value)
  {
    var beat := NormalizeBeatPayload(payload);
    if beat.None? then Err(InvalidBeatPayload)
    else if queueLength >= MaxQueueLength then Err(QueueFull)
    else if now - lastEnqueueAt < EnqueueCooldownMs then Err(CooldownActive)
    else Ok(beat.value)
  }

  /** A valid submission on a non-full queue is accepted exactly when at least
      1500 ms have passed since this connection's last accepted one. */
  lemma CooldownWindow(payload: JsValue, queueLength: nat, last: int, now: int)
    requires NormalizeBeatPayload(payload).Some? && queueLength < MaxQueueLength
    ensures Admit(payload, queueLength, last, now).Ok? <==> now >= last + EnqueueCooldownMs
    ensures Admit(payload, queueLength, last, now).Err? ==>
      Admit(payload, queueLength, last, now).error == CooldownActive
  {
  }

  /** A full queue refuses every submission that gets past validation,
      whatever the clock says. */
  lemma FullQueueRefuses(payload: JsValue, queueLength: nat, last: int, now: int)
    requires queueLength >= MaxQueueLength
    ensures Admit(payload, queueLength, last, now).Err?
  {
  }

  /** The `videoId !==` guard of `track_ended` and `startNext` (index.js:139,
      157), negated: a reported id equals the current one only when it is that
      very string. */
  predicate SameVideoId(current: Beat, reported: JsValue)
  {
    reported == Str(current.videoId)
  }

  /** `room.startedAt === reported`: both null, or the same number. */
  predicate SameStartedAt(startedAt: Option<int>, reported: JsValue)
  {
    match startedAt
    case None => reported == Null
    case Some(t) => reported == Number(t)
  }

  /** The stale-report guard: there is a current beat and the report names its
      `videoId` and its `startedAt`. */
  predicate MatchesCurrent(currentBeat: Option<Beat>, startedAt: Option<int>, e: Expected)
  {
    currentBeat.Some? && SameVideoId(currentBeat.value, e.videoId) && SameStartedAt(startedAt, e.startedAt)
  }

  class RoomCoordinator {
    var queue: seq<Beat>
    var currentBeat: Option<Beat>
    var startedAt: Option<int>
    var transitionLock: bool
    var users: map<ConnId, User>
    var lastEnqueueAt: map<ConnId, int>
    var outbox: seq<Event>

    /** The `room` object as it is serialised into `room_state`. */
    function State(): Message
      reads this
    {
      RoomState(queue, currentBeat, startedAt, transitionLock)
    }

    /** What holds even in the middle of a handler: the queue is capped and
        holds only normalised beats, a beat plays exactly when it has a start
        time, and every presence entry is keyed by its own id and has a valid
        name. */
    ghost predicate Consistent()
      reads this
    {
      |queue| <= MaxQueueLength &&
      (currentBeat.None? <==> startedAt.None?) &&
      (forall b :: b in queue ==> IsNormalizedBeat(b)) &&
      (currentBeat.Some? ==> IsNormalizedBeat(currentBeat.value)) &&
      (forall id :: id in users ==> users[id].id == id && IsNormalizedField(users[id].name, MaxUsernameLength))
    }

    /** Between events, moreover, the flag is released and the room is only
        idle when nothing waits in the queue. */
    ghost predicate Valid()
      reads this
    {
      Consistent() && !transitionLock && (currentBeat.None? ==> queue == [])
    }

    /** The `expected` value `skip` builds from the room: the current beat's
        `videoId` and `startedAt`, or null when the room is idle. */
    function CurrentExpectation(): (e: Option<Expected>)
      reads this
      ensures currentBeat.Some? && startedAt.Some? ==> e.Some? && MatchesCurrent(currentBeat, startedAt, e.value)
      ensures currentBeat.None? ==> e.None?
    {
      if currentBeat.Some?
      then Some(Expected(Str(currentBeat.value.videoId), if startedAt.Some? then Number(startedAt.value) else Null))
      else None
    }

    /** Whether `startNext(expected)` gets past its guards. */
    predicate Proceeds(expected: Option<Expected>)
      reads this
    {
      !transitionLock && (expected.None? || MatchesCurrent(currentBeat, startedAt, expected.value))
    }

    /** The state after one completed transition from a queue `q` and an
        outbox `out` at time `now`: the head starts (announced by `beat_start`
        then `room_state`), or the room goes idle (only `room_state`). */
    ghost predicate AdvancedFrom(q: seq<Beat>, out: seq<Event>, now: int)
      reads this
    {
      !transitionLock &&
      if q == [] then
        currentBeat == None && startedAt == None && queue == [] &&
        outbox == out + [Event(Everyone, State())]
      else
        currentBeat == Some(q[0]) && startedAt == Some(now) && queue == q[1..] &&
        outbox == out + [Event(Everyone, BeatStart(q[0], now)), Event(Everyone, State())]
    }

    constructor ()
      ensures Valid()
      ensures queue == [] && currentBeat == None && startedAt == None
      ensures users == map[] && lastEnqueueAt == map[] && outbox == []
    {
      queue := [];
      currentBeat := None;
      startedAt := None;
      transitionLock := false;
      users := map[];
      lastEnqueueAt := map[];
      outbox := [];
    }

    /** `startNext(expectedCurrent)`: does nothing while a transition is in
        progress or when `expected` no longer describes the current beat;
        otherwise holds the flag across one pop-and-broadcast and releases it
        on both exits. */
    method StartNext(expected: Option<Expected>, now: int)
      requires Consistent()
      modifies this
      ensures Consistent()
      ensures transitionLock == old(transitionLock)
      ensures users == old(users) && lastEnqueueAt == old(lastEnqueueAt)
      ensures old(Proceeds(expected)) ==> AdvancedFrom(old(queue), old(outbox), now)
      ensures !old(Proceeds(expected)) ==>
        queue == old(queue) && currentBeat == old(currentBeat) &&
        startedAt == old(startedAt) && outbox == old(outbox)
    {
      if transitionLock {
        return;
      }
      if expected.Some? {
        if currentBeat.None? {
          return;
        }
        if !SameVideoId(currentBeat.value, expected.value.videoId) {
          return;
        }
        if !SameStartedAt(startedAt, expected.value.startedAt) {
          return;
        }
      }

      transitionLock := true;

      if |queue| == 0 {
        currentBeat := None;
        startedAt := None;
        transitionLock := false;
        outbox := outbox + [Event(Everyone, State())];
        return;
      }

      currentBeat := Some(queue[0]);
      queue := queue[1..];
      startedAt := Some(now);

      outbox := outbox + [Event(Everyone, BeatStart(currentBeat.value, startedAt.value))];

      transitionLock := false;
      outbox := outbox + [Event(Everyone, State())];
    }

    /** `register_user`: a name that does not normalise (cap 24) is refused
        with `invalid_username` and nothing else changes; a valid one
        overwrites this connection's entry, broadcasts presence and sends the
        room state to the sender. */
    method RegisterUser(sender: ConnId, username: JsValue, color: string)
      requires Valid()
      modifies this
      ensures Valid()
      ensures queue == old(queue) && currentBeat == old(currentBeat) && startedAt == old(startedAt)
      ensures lastEnqueueAt == old(lastEnqueueAt)
      ensures NormalizeNonEmptyString(username, MaxUsernameLength).None? ==>
        users == old(users) &&
        outbox == old(outbox) + [Event(Only(sender), PayloadError("register_user", "invalid_username", MaxLength(MaxUsernameLength)))]
      ensures NormalizeNonEmptyString(username, MaxUsernameLength).Some? ==>
        users == old(users)[sender := User(sender, NormalizeNonEmptyString(username, MaxUsernameLength).value, color)] &&
        outbox == old(outbox) + [Event(Everyone, PresenceUpdate(users)), Event(Only(sender), State())]
    {
      var normalizedUsername := NormalizeNonEmptyString(username, MaxUsernameLength);

      if normalizedUsername.None? {
        outbox := outbox + [Event(Only(sender), PayloadError("register_user", "invalid_username", MaxLength(MaxUsernameLength)))];
        return;
      }

      users := users[sender := User(sender, normalizedUsername.value, color)];

      outbox := outbox + [Event(Everyone, PresenceUpdate(users))];
      outbox := outbox + [Event(Only(sender), State())];
    }

    /** The accepting tail of `add_beat`: append the beat at the tail, stamp
        the sender's throttle, start the beat at once if the room is idle, and
        broadcast the room. */
    method Accept(sender: ConnId, beat: Beat, now: int)
      requires Valid() && IsNormalizedBeat(beat) && |queue| < MaxQueueLength
      modifies this
      ensures Valid()
      ensures users == old(users) && lastEnqueueAt == old(lastEnqueueAt)[sender := now]
      ensures old(currentBeat).Some? ==>
        queue == old(queue) + [beat] && currentBeat == old(currentBeat) && startedAt == old(startedAt) &&
        outbox == old(outbox) + [Event(Everyone, State())]
      ensures old(currentBeat).None? ==>
        queue == [] && currentBeat == Some(beat) && startedAt == Some(now) &&
        outbox == old(outbox) + [Event(Everyone, BeatStart(beat, now)), Event(Everyone, State()), Event(Everyone, State())]
    {
      queue := queue + [beat];
      lastEnqueueAt := lastEnqueueAt[sender := now];

      if currentBeat.None? {
        StartNext(None, now);
      }
      outbox := outbox + [Event(Everyone, State())];
    }

    /** `add_beat`, with every check made before the queue is touched. A
        rejection only tells the sender why; an acceptance goes on as Accept
        says. */
    method AddBeat(sender: ConnId, payload: JsValue, now: int)
      requires Valid()
      modifies this
      ensures Valid()
      ensures users == old(users)
      ensures Admit(payload, |old(queue)|, LastEnqueueAt(old(lastEnqueueAt), sender), now).Err? ==>
        var reason := Admit(payload, |old(queue)|, LastEnqueueAt(old(lastEnqueueAt), sender), now).error;
        queue == old(queue) && currentBeat == old(currentBeat) && startedAt == old(startedAt) &&
        lastEnqueueAt == old(lastEnqueueAt) &&
        outbox == old(outbox) + [Event(Only(sender), PayloadError("add_beat", ReasonCode(reason), ReasonDetail(reason)))]
      ensures Admit(payload, |old(queue)|, LastEnqueueAt(old(lastEnqueueAt), sender), now).Ok? ==>
        var beat := Admit(payload, |old(queue)|, LastEnqueueAt(old(lastEnqueueAt), sender), now).value;
        lastEnqueueAt == old(lastEnqueueAt)[sender := now] &&
        (old(currentBeat).Some? ==>
          queue == old(queue) + [beat] && currentBeat == old(currentBeat) && startedAt == old(startedAt) &&
          outbox == old(outbox) + [Event(Everyone, State())]) &&
        (old(currentBeat).None? ==>
          queue == [] && currentBeat == Some(beat) && startedAt == Some(now) &&
          outbox == old(outbox) + [Event(Everyone, BeatStart(beat, now)), Event(Everyone, State()), Event(Everyone, State())])
    {
      var decision := Admit(payload, |queue|, LastEnqueueAt(lastEnqueueAt, sender), now);

      if decision.Err? {
        outbox := outbox + [Event(Only(sender), PayloadError("add_beat", ReasonCode(decision.error), ReasonDetail(decision.error)))];
        return;
      }

      Accept(sender, decision.value, now);
    }

    /** `skip`: the expected value is read from the room itself, so the one
        transition always proceeds; on an idle room (whose queue is empty)
        it only re-broadcasts the idle state. */
    method Skip(now: int)
      requires Valid()
      modifies this
      ensures Valid()
      ensures users == old(users) && lastEnqueueAt == old(lastEnqueueAt)
      ensures AdvancedFrom(old(queue), old(outbox), now)
      ensures old(currentBeat).None? ==> currentBeat == None && startedAt == None && queue == []
    {
      var expected := CurrentExpectation();
      StartNext(expected, now);
    }

    /** `track_ended {videoId, startedAt}`: advances only when the report names
        the beat playing now and its start time; a stale or duplicate report
        changes nothing and sends nothing. */
    method TrackEnded(videoId: JsValue, reportedStartedAt: JsValue, now: int)
      requires Valid()
      modifies this
      ensures Valid()
      ensures users == old(users) && lastEnqueueAt == old(lastEnqueueAt)
      ensures old(MatchesCurrent(currentBeat, startedAt, Expected(videoId, reportedStartedAt))) ==>
        AdvancedFrom(old(queue), old(outbox), now)
      ensures !old(MatchesCurrent(currentBeat, startedAt, Expected(videoId, reportedStartedAt))) ==>
        queue == old(queue) && currentBeat == old(currentBeat) &&
        startedAt == old(startedAt) && outbox == old(outbox)
    {
      if currentBeat.None? || transitionLock {
        return;
      }
      if !SameVideoId(currentBeat.value, videoId) {
        return;
      }
      if !SameStartedAt(startedAt, reportedStartedAt) {
        return;
      }

      StartNext(Some(Expected(videoId, reportedStartedAt)), now);
    }

    /** `request_sync`: replies to the sender alone with the current start time. */
    method RequestSync(sender: ConnId)
      requires Valid()
      modifies this`outbox
      ensures Valid()
      ensures outbox == old(outbox) + [Event(Only(sender), Sync(startedAt))]
    {
      outbox := outbox + [Event(Only(sender), Sync(startedAt))];
    }

    /** `disconnect`: forgets this connection's presence entry and throttle
        stamp, and broadcasts the remaining presence. */
    method Disconnect(sender: ConnId)
      requires Valid()
      modifies this`users, this`lastEnqueueAt, this`outbox
      ensures Valid()
      ensures users == old(users) - {sender}
      ensures lastEnqueueAt == old(lastEnqueueAt) - {sender}
      ensures outbox == old(outbox) + [Event(Everyone, PresenceUpdate(users))]
    {
      users := users - {sender};
      lastEnqueueAt := lastEnqueueAt - {sender};
      outbox := outbox + [Event(Everyone, PresenceUpdate(users))];
    }
  }
}
