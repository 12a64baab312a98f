# Cypher room coordinator, modelled in Dafny

Cypher lets many clients share one listening room. It has one beat playing,
since a known time. It has a shared queue of upcoming beats, capped at 100.
It keeps a presence list of named users. This project models three parts:

- the server's room coordinator (`cypher-server/index.js`);
- the client's link recogniser (`cypher/app/page.tsx`);
- how the two interact.

Modules, one per concern:

- `Wrappers` (`wrappers.dfy`): `Option` and `Result`.
- `JsText` (`js_text.dfy`): ECMAScript `String.prototype.trim` and `includes`. The whitespace set is the one the ECMAScript standard defines: WhiteSpace and LineTerminator.
- `Payload` (`payload.dfy`): the JavaScript values a client can send (`JsValue`), `normalizeNonEmptyString` and `normalizeBeatPayload`.
- `Room` (`room.dfy`): the authoritative room as the class `RoomCoordinator`.
  - Its fields are `queue`, `currentBeat`, `startedAt`, `transitionLock`, `users` and `lastEnqueueAt`, plus `outbox`.
  - `outbox` records every `io.emit` (to `Everyone`) and every `socket.emit` (to `Only(id)`).
  - `Date.now()` is the `now` parameter of each handler.
  - `Consistent()` holds at every call of `StartNext`, including the one in the middle of `add_beat`, where an idle room may already hold the new beat in its queue. It says: the queue holds at most 100 normalised beats, `currentBeat == None <==> startedAt == None`, and presence entries are keyed by their own id and have a valid name.
  - `Valid()` holds between events: `Consistent()`, the transition lock released, and the room idle only when the queue is empty. Every handler preserves `Valid()`.
  - `Admit` is the admission decision of `add_beat`. It is taken before anything changes.
- `LinkParser` (`link_parser.dfy`): `getYouTubeId` and `parseBeatInput`.
  - The two regular expressions are given as lists of literal alternatives. Each alternative is followed by an 11-character id group.
  - Matching follows JavaScript: the leftmost start position wins, and at one position the first alternative in order wins. The first pattern in the list wins.
- `Interop` (`interop.dfy`): what the server's normaliser does with the payload the client's `addBeat` emits.
  - YouTube beats are accepted with their id and source unchanged.
  - SoundCloud beats carry no `videoId`, so the server rejects every one of them.
- `AsWritten` (`as_written.dfy`): the two findings below, as the code is written.

Three points where the file is ambiguous, and how this model reads them:

- `startNext` is declared twice (index.js:151-153). The model follows the inner declaration, `startNext(expectedCurrent)`.
- `add_beat` and `skip` pass `socket.id` (index.js:124, 130). This is read as the older revision's unconditional call: `StartNext(None, now)`. Taken literally under JavaScript semantics, a string argument would stop `startNext` at index.js:156 on an idle room, or at index.js:157 on a playing room (a string has no `videoId`), and do nothing.
- The code keeps no session counter, and its `sync` reply carries only `startedAt`. The model follows the code: the stale-report guard compares `videoId` and `startedAt`.

## Model

| member | source | states |
|---|---|---|
| `JsText.Trim` | cypher-server/index.js:50 | the trimmed string is no longer than the input and neither starts nor ends with whitespace |
| `JsText.TrimEmptyIff` | cypher-server/index.js:50-51 | a string trims to empty exactly when every character is whitespace |
| `JsText.TrimIsTheUniqueSlice` | cypher-server/index.js:50 | any slice with only whitespace around it and non-whitespace at both ends is the trim, so the trim is unique |
| `JsText.TrimIdempotent` | cypher/app/page.tsx:309 | trimming twice gives the same as trimming once (the server re-trims the client's trimmed url) |
| `JsText.TrimNoWhitespace` | cypher-server/index.js:50 | a string without whitespace is its own trim |
| `JsText.Includes` | cypher/app/page.tsx:319 | `includes` holds exactly when the substring occurs at some index |
| `Payload.Prefix` | cypher-server/index.js:50 | `slice(0, n)` is a prefix of length min(n, length) |
| `Payload.NormalizeNonEmptyString` | cypher-server/index.js:47-52 | null exactly for a non-string, a value that trims to empty, or a zero cap; otherwise a non-empty prefix of the trimmed value, of length min(trimmed length, cap), not starting with whitespace |
| `Payload.NormalizeTrimmed` | cypher-server/index.js:47-52 | an already trimmed non-empty string normalises to its first `maxLength` characters |
| `Payload.NormalizeFixedPoint` | cypher-server/index.js:47-52 | a trimmed non-empty string within the cap normalises to itself |
| `Payload.NormalizeIdempotent` | cypher-server/index.js:47-52 | normalising a normalised value again changes nothing when the cap did not cut into it |
| `Payload.NormalizeBeatPayload` | cypher-server/index.js:54-64 | non-null exactly for an object whose `url` (cap 2048), `videoId` (cap 128) and `source` (cap 64) all normalise; the result is exactly those three normalised fields, each non-empty and within its cap |
| `Payload.MissingFieldRejected` | cypher-server/index.js:57-61 | an object missing any of the three keys is rejected |
| `Room.Admit` | cypher-server/index.js:96-119 | rejects in a fixed order: `invalid_beat_payload` exactly when the payload does not normalise; then `queue_full` at length >= 100; then `cooldown_active` when `now - last < 1500`; otherwise accepts the normalised beat |
| `Room.CooldownWindow` | cypher-server/index.js:112-119 | a valid submission to a non-full queue is accepted exactly when `now >= last + 1500`, and otherwise refused only for the cooldown |
| `Room.FullQueueRefuses` | cypher-server/index.js:105-110 | a queue of 100 or more refuses every submission |
| `Room.RoomCoordinator.CurrentExpectation` | cypher-server/index.js:131-133 | the expectation built from a playing room always matches that room; on an idle room it is null |
| `Room.RoomCoordinator.constructor` | cypher-server/index.js:25-33 | the initial room is idle, empty, unlocked, with no users or throttle stamps, and is `Valid` |
| `Room.RoomCoordinator.StartNext` | cypher-server/index.js:153-181 | does nothing while the lock is held or when `expected` no longer names the current beat and start time. Otherwise it pops the head, sets `startedAt = now` and emits `beat_start` then `room_state`, or on an empty queue goes idle with both fields null and emits only `room_state`. The lock is left as found and `Consistent` is kept |
| `Room.RoomCoordinator.RegisterUser` | cypher-server/index.js:72-91 | an invalid name (cap 24) leaves `users` unchanged and sends `invalid_username` to the sender; a valid one overwrites `users[id]` with the normalised name, then broadcasts presence and sends the room state to the sender |
| `Room.RoomCoordinator.Accept` | cypher-server/index.js:121-125 | appends the beat at the tail and sets the sender's throttle to `now`. On a playing room it then broadcasts the room; on an idle room the beat starts at once (`beat_start`, then `room_state` twice) |
| `Room.RoomCoordinator.AddBeat` | cypher-server/index.js:93-126 | a rejected submission changes nothing except one `payload_error` to the sender, with the reason `Admit` gives; an accepted one stamps the sender's throttle and appends the normalised beat at the tail (FIFO), or on an idle room starts it at once; `Valid` is kept, so the queue never exceeds 100 |
| `Room.RoomCoordinator.Skip` | cypher-server/index.js:131-134 | always performs exactly one transition; on an idle room with an empty queue it stays idle and null |
| `Room.RoomCoordinator.TrackEnded` | cypher-server/index.js:137-143 | advances exactly when the report names the current `videoId` and `startedAt`; a stale or duplicate report changes nothing and emits nothing |
| `Room.RoomCoordinator.RequestSync` | cypher-server/index.js:145-149 | replies to the sender alone with the current `startedAt`; nothing else changes |
| `Room.RoomCoordinator.Disconnect` | cypher-server/index.js:183-187 | removes only this id's entries from `users` and the throttle, and broadcasts presence |
| `LinkParser.FirstAlt` | cypher/app/page.tsx:296 | the alternatives are tried in order: the result is the first one from `k` on that matches, and none before it does |
| `LinkParser.CaptureAt` | cypher/app/page.tsx:296-297 | a capture exists at index `i` exactly when some alternative and 11 id characters match there; it is the 11 characters after the first matching alternative in order |
| `LinkParser.SearchFrom` | cypher/app/page.tsx:301 | returns the leftmost index at or after `i` where the pattern matches, or none when it matches nowhere from `i` on |
| `LinkParser.Match` | cypher/app/page.tsx:301-302 | `match` gives 11 id characters, or null exactly when the pattern matches at no index; a non-null result is the capture at the leftmost index where the pattern matches |
| `LinkParser.FirstMatch` | cypher/app/page.tsx:300-303 | the loop over the patterns yields only 11-character ids |
| `LinkParser.GetYouTubeId` | cypher/app/page.tsx:294-306 | the result is null or exactly 11 characters from `[0-9A-Za-z_-]` |
| `LinkParser.GetYouTubeIdLeftmostWatchOrShort` | cypher/app/page.tsx:296-302 | when the watch/short pattern matches, the id is the capture at its leftmost match |
| `LinkParser.GetYouTubeIdEmbedFallback` | cypher/app/page.tsx:297-303 | the embed pattern decides only when the first pattern matches nowhere, and then its leftmost match gives the id |
| `LinkParser.GetYouTubeIdNone` | cypher/app/page.tsx:300-305 | null exactly when neither pattern matches anywhere |
| `LinkParser.LeftmostIsFound` | cypher/app/page.tsx:301 | a search from `from` stops at the leftmost match at or after `from` |
| `LinkParser.ShortLinkYieldsId` | cypher/app/page.tsx:296 | `youtu.be/` followed by an 11-character id yields that id |
| `LinkParser.ParseBeatInput` | cypher/app/page.tsx:308-327 | null for input that trims to empty. A YouTube beat `{url: trimmed input, source: youtube, videoId: id}` results exactly when an id is found; YouTube wins over SoundCloud. A SoundCloud beat, without `videoId`, results exactly when no id is found and the parsed hostname includes `soundcloud.com`. Every non-null result has the trimmed, non-empty input as `url` |
| `LinkParser.ParseBeatInputRefusals` | cypher/app/page.tsx:309-324 | all-whitespace input gives null; so does input with no YouTube id that is not a parsable URL |
| `Interop.YouTubePayloadFields` | cypher/app/page.tsx:336 | the emitted YouTube payload's `url`, `videoId` and `source` properties are exactly the beat's |
| `Interop.SoundCloudBeatRejected` | cypher/app/page.tsx:319-320 | every SoundCloud beat the client produces is rejected by `normalizeBeatPayload` (no `videoId`) |
| `Interop.IdTrimsToItself` | cypher/app/page.tsx:296 | id characters are never whitespace, so an id is its own trim |
| `Interop.YouTubeBeatAccepted` | cypher/app/page.tsx:312-315 | every YouTube beat the client produces normalises on the server to the same id and source, and to the same url when it is at most 2048 characters long (otherwise its first 2048) |
| `Interop.ClientYouTubeBeatAccepted` | cypher-server/index.js:54-64 | a payload with a trimmed url and a trimmed id within 128 characters normalises to those fields and source `youtube` |
| `Interop.YouTubeSourceNormalizes` | cypher-server/index.js:59 | the source name `youtube` normalises to itself |
| `AsWritten.AddBeatQueueAsWritten` | cypher-server/index.js:94-122 | as written, every submission first appends the raw payload; an accepted one (valid, the raw-extended queue below 100, out of cooldown) then appends its normalised copy as well, and a refused one leaves only the raw payload behind |
| `AsWritten.AddBeatAsWritten` | cypher-server/index.js:93-126 | as written, with index.js:124 testing JavaScript truthiness: a refused submission, or one made while a truthy beat plays, starts nothing; an accepted one on a room whose current beat is falsy starts the head of the raw-extended queue, whatever it is, and stamps `startedAt` |
| `AsWritten.IdleRoomPlaysRawPayload` | cypher-server/index.js:121-124 | on an idle, empty room an accepted submission starts the raw, un-normalised payload and leaves its normalised copy queued, so the beat plays twice |
| `AsWritten.RejectedNullStartsPlaying` | cypher-server/index.js:94-124 | after `add_beat(null)` on an idle, empty room, a valid submission starts the queued `null` instead of itself: the room then has a start time but a null beat, and the new payload plus its normalised copy wait in the queue |
| `AsWritten.RejectedPayloadStillQueued` | cypher-server/index.js:94-103 | a payload refused as `invalid_beat_payload` is still appended to the queue as written |
| `AsWritten.NullPayloadQueued` | cypher-server/index.js:94-103 | `add_beat(null)` on an empty queue leaves `[null]` in the queue |
| `AsWritten.SkipAsWritten` | cypher-server/index.js:128-135 | as written, one skip with two or more beats queued moves to the second queued beat, and with one queued beat it leaves the room idle |
| `AsWritten.SkipPassesOverNextBeat` | cypher-server/index.js:128-135 | playing `a` with `[b, c]` queued, the as-written skip lands on `c` and the intended `Skip` lands on `b` |

## Left out

- Transport: express, HTTP, the socket.io server, `cors` and `server.listen`. Emits are appends to `outbox`.
- `logTransition` and the debug flag (index.js:9-17): console output only.
- `randomColor` (index.js:66-68) uses `Math.random` and float formatting. The colour is a parameter of `RegisterUser`.
- `new URL(input).hostname` in `parseBeatInput` is the `hostname` parameter. `None` means the constructor throws.
- Voice chat, client playback control, the media widgets and the React UI: glue over browser APIs, outside the room's state.
- Concurrency and interleavings. Node runs one handler at a time. The transition lock is modelled as the re-entrancy flag it is.
- The client's `beat_ended {sessionId}` event and its reading of `room.currentBeat` do not match the server's `track_ended {videoId, startedAt}`. The server's guard is modelled as written.
- `Object.values(users)` order: presence snapshots are the `users` map, so insertion order is not modelled.
- JavaScript strings are UTF-16 code units, while Dafny characters are Unicode scalar values. Lengths, `trim`, `slice` and `includes` on surrogate pairs are not modelled.
- Numbers are integers: `Date.now()` and reported timestamps. Fractional or non-finite numbers are not modelled.
- `track_ended` with a `null` or `undefined` payload throws while destructuring. The model takes the two destructured properties as its inputs.
- Each event reads the clock once. The two `Date.now()` reads of an accepted `add_beat` (index.js:112 and 172) are taken as the same instant.
- The outer, duplicated `startNext` header (index.js:151-152) only logs.

## Findings

| source | as written | input that shows it | evidently intended | confidence | as-written member | corrected member |
|---|---|---|---|---|---|---|
| cypher-server/index.js:94 | `add_beat` pushes the raw payload before validating it; an accepted payload is pushed again in normalised form at line 121, and on an idle room line 124 then starts whatever heads the queue: on an idle, empty room the raw payload itself, with the normalised copy left queued to play again; behind an earlier rejected `null`, that `null`, leaving `currentBeat` null while `startedAt` is set | `add_beat(null)` on an empty queue: the sender gets `invalid_beat_payload`, yet the queue becomes `[null]`; a valid payload on an idle, empty room plays raw and stays queued normalised; `add_beat(null)` then a valid payload on an idle room starts `null` | validate first; a rejected submission leaves the queue unchanged, and an accepted one adds one normalised beat | not executed; high (line 121 pushes the normalised beat again) | `AsWritten.RejectedPayloadStillQueued` (`AsWritten.AddBeatQueueAsWritten`, `AsWritten.NullPayloadQueued`, `AsWritten.AddBeatAsWritten`, `AsWritten.IdleRoomPlaysRawPayload`, `AsWritten.RejectedNullStartsPlaying`) | `Room.RoomCoordinator.AddBeat` (`Room.Admit`) |
| cypher-server/index.js:130 | `skip` calls `startNext` unconditionally (line 130). It then calls it again with an expectation built from the new state (lines 131-134), which always passes. | playing `a` with `[b, c]` queued: after one skip `c` plays and `b` never does | one skip performs one transition | not executed; medium (it rests on reading line 130's socket-id argument as unconditional) | `AsWritten.SkipAsWritten` (`AsWritten.SkipPassesOverNextBeat`) | `Room.RoomCoordinator.Skip` |
