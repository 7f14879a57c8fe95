# Encrypted tweet-stream client: a Dafny model

This project models the frame-handling core of the websocket client in `main.js`. The
client joins the `tweets` namespace of a Socket.IO-style server and answers heartbeats. It
authenticates once per connection and learns AES-GCM keys from `crypto:broadcast_key` and
`crypto:key_rotate` events. It splits each binary frame into a key id, IV, ciphertext and
tag, picks a key (the frame's own, or the active one as a fallback), decrypts the frame, and
routes the decoded event through the `handleMessage` switch. One event type also starts the
token-metadata and trade pipeline.

Modules, one per part of the core:

- `Bytes` (`bytes.dfy`): `concatUint8` as an imperative method over a fresh `array`, proved
  against the specification function `Flatten`.
- `Frames` (`frames.dfy`): the text-frame classifier and the fixed-offset binary layout.
- `Keys` (`keys.dfy`): `keyMap` and `activeKeyId`, the key-event write, and the lookup with
  its truthiness-based fallback.
- `Dispatch` (`dispatch.dfy`): the `handleMessage` switch.
- `Client` (`client.dfy`): the `open`, `message` and `close` handlers. `ClientState` and the
  functions `Receive`, `Apply` and `Run` specify them. The class `Client` holds the same
  state in mutable fields, as the source's module-level variables do. `Open`, `Close` and
  `OnMessage` are each proved to perform exactly one `Apply` step and to keep the invariant
  `Consistent`. `ReceiveText`, `ReceiveBinary`, `StoreKey` and `HandleMessage` are parts of
  `OnMessage`; each is proved equal to its part of the step (`OnText`, `OnBinary`,
  `UpdateKey`, `Deliver`).
- `JsValues` (`js_values.dfy`) and `Wrappers` (`wrappers.dfy`): the JavaScript values the
  handler inspects (truthiness, property reads, array destructuring), and `Option`.

The library and platform calls are parameters of the model, gathered in the datatype
`Client.Host`. They are `JSON.parse`, `Buffer.from(…, "base64")`, `importKey`, AES-GCM
`decrypt` and `TextDecoder`, plus the bearer token read from the environment. Each call
returns `None` where the real call throws or rejects. The handler's `catch` turns every such
failure into "no state change", and the model does the same.

Points of the code a reader might not expect:

- The key fallback tests the active id for JavaScript truthiness, not only for presence.
  So an active id of `0` (or `""`) disables the fallback even when that key is stored
  (`Keys.ZeroActiveIdDisablesFallback`).
- A key id is whatever JSON value `key_id` held. A frame looks its key up under the number
  of its first byte, so a key stored under the string `"1"` is never found under the
  frame's own id 1 (only through the active-id fallback).
- Authentication is one boolean flag. It is set when the authenticate event is sent, not
  when the server confirms it.
- The namespace is fixed to `tweets`.
- The pipeline promise at main.js:209-216 has no rejection handler, so a failure there is an
  unhandled rejection; the pipeline is outside this model.

## Model

| member | source | states |
|---|---|---|
| `JsValues.Property` | main.js:151-153 | a property read throws exactly on `undefined`/`null`; otherwise it yields the field or `undefined` |
| `JsValues.FirstTwo` | main.js:147 | `[event, data]` destructuring succeeds exactly on arrays and strings; on an array of two or more it yields the first two elements |
| `Bytes.Flatten` | main.js:31-32 | the joined array's length is the left-to-right sum of the input lengths |
| `Bytes.FlattenAt` | main.js:33-37 | byte `j` of input `i` lands at the running offset of input `i` plus `j` |
| `Bytes.FlattenPair` | main.js:175 | joining ciphertext and tag gives the ciphertext followed by the tag |
| `Bytes.ConcatUint8` | main.js:30-39 | the output array has the total length and holds the inputs in order |
| `Frames.IndexOf` | main.js:144 | the result is -1 exactly when the character is absent; otherwise it is its first position |
| `Frames.Substring` | main.js:144 | `substring(-1)` is the whole string; an in-range start gives the suffix |
| `Frames.ClassifyText` | main.js:128-159 | heartbeat iff the text is `"2"`; open ack iff it starts with `40`; namespace event iff it starts with `42/tweets`, with the JSON part starting at the first `[` (the whole text when there is none) |
| `Frames.Join` | main.js:164-167 | a well-formed frame's wire form is 29 bytes longer than its ciphertext |
| `Frames.SplitFrame` | main.js:161-167 | frames under 29 bytes are rejected; otherwise the IV has 12 bytes, the tag 16, the ciphertext n - 29, and key id + IV + ciphertext + tag is the frame |
| `Frames.SplitJoin` | main.js:164-167 | splitting the wire form of a well-formed frame gives back its fields |
| `Keys.Put` | main.js:150-155 | a key event stores the key under its id, makes that id active, and keeps every other entry |
| `Keys.Lookup` | main.js:169-170 | the frame's own key if stored; else the active key if the active id is truthy and stored; else nothing |
| `Keys.EmptyValid` | main.js:13-14 | at start-up (empty map, `null` active id) the invariant holds |
| `Keys.PutPreservesValid` | main.js:153-154 | every key write keeps the invariant: the active id names a stored key, except before the first key event |
| `Keys.PutIdempotent` | main.js:153-154 | repeating an id/key pair has no further effect |
| `Keys.LookupFailsIff` | main.js:169-170 | given the invariant, no key is found exactly when the id is unknown and the active id is falsy |
| `Keys.ZeroActiveIdDisablesFallback` | main.js:169 | with active id `0`, an unknown frame id finds no key |
| `Keys.RotationKeepsOlderKeys` | main.js:153-154 | after storing key 5 and then key 7, key 5 is still found and 7 is active |
| `Keys.UnknownIdUsesActiveKey` | main.js:169 | an unknown frame id falls back to the key of a truthy active id |
| `Dispatch.Route` | main.js:199-231 | a named handler is chosen only for a string among its own case labels |
| `Dispatch.RouteFollowsLabels` | main.js:200-230 | each handler is reached exactly by its labels, and every other `t` reaches the default |
| `Dispatch.OnlyFullUpdateRunsPipeline` | main.js:207-217 | the pipeline is started iff `t` is `tweet_full_update` |
| `Dispatch.FollowAndUnfollowShareHandler` | main.js:221-224 | `user.follow` and `user.unfollow` reach the same handler |
| `Client.AuthFrame` | main.js:135-137 | the authenticate event is a `42/tweets` frame, distinct from the join and the pong |
| `Client.Initial` | main.js:11-14 | start-up: no keys, a `null` active id, not authenticated, nothing sent |
| `Client.DecodeBinary` | main.js:161-180 | a frame is too short iff it has under 29 bytes; it has no key iff the lookup fails; decryption uses the IV at bytes 1-12 and the rest of the frame (ciphertext then tag); after a successful decryption the frame is unparsable iff `JSON.parse` of the decoded plaintext fails, and a decoded value is that parse |
| `Client.DecodeSealedFrame` | main.js:164-180 | a well-formed frame with a known key, a valid tag and parsable plaintext decodes to that plaintext's value |
| `Client.Client.constructor` | main.js:11-14 | the fields start in the start-up state |
| `Client.Client.Open` | main.js:118-121 | `open` sends `40/tweets,` |
| `Client.Client.Close` | main.js:192-196 | `close` clears the flag only |
| `Client.Client.HandleMessage` | main.js:199-231 | records the chosen handler and, for `tweet_full_update`, one pipeline start with `d` |
| `Client.Client.StoreKey` | main.js:150-155 | a key event changes the fields exactly as `UpdateKey` specifies |
| `Client.Client.ReceiveText` | main.js:125-159 | the text branch changes the fields exactly as `OnText` specifies |
| `Client.Client.ReceiveBinary` | main.js:160-182 | the binary branch, with `concatUint8` on an array, changes the fields exactly as `OnBinary` specifies |
| `Client.Client.OnMessage` | main.js:123-186 | one message performs one `Receive` step and keeps the invariant |
| `Client.HeartbeatRepliesOnce` | main.js:128-131 | `"2"` sends exactly one `"3"` and changes nothing else |
| `Client.NamespaceOpenAuthenticatesOnce` | main.js:133-141 | a `40` frame sends the authenticate event and sets the flag only when the flag is clear; otherwise nothing changes |
| `Client.NamespaceEventOnlyTouchesKeys` | main.js:143-159 | a `42/tweets` frame sends and dispatches nothing; its only possible effect is one key store |
| `Client.KeyEventStoresKey` | main.js:143-155 | a key event (any parse whose destructuring yields a key event name and its data) with a decodable key stores it under `key_id` and makes that id active; nothing else changes |
| `Client.NamespaceEventWithoutKeyChangesNothing` | main.js:143-159 | a `42/tweets` frame whose JSON fails to parse, whose parse cannot be destructured, or whose event is not a key event (`authenticated` included) changes nothing |
| `Client.KeyDecodeFailureChangesNothing` | main.js:150-152 | a key event whose `data.key_b64` read, base64 decoding or key import fails changes nothing |
| `Client.IgnoredTextChangesNothing` | main.js:125-159 | any other text frame changes nothing and sends nothing |
| `Client.ShortFrameChangesNothing` | main.js:161-162 | a frame under 29 bytes stops before the lookup and changes nothing |
| `Client.KeylessFrameChangesNothing` | main.js:169-170 | a frame with no key found is dropped silently |
| `Client.FailedDecodeChangesNothing` | main.js:172-185 | a frame whose decryption fails or whose plaintext is not JSON changes nothing |
| `Client.DecodedNullChangesNothing` | main.js:181-185 | a decrypted `null` or `undefined` makes `handleMessage` throw; nothing changes |
| `Client.DecodedFrameDelivers` | main.js:178-181 | any other decrypted value adds one delivery of its `t` and `d` to the handler the switch picks, one pipeline start with `d` iff `t` is `tweet_full_update`, and keeps keys, flag and sent frames |
| `Client.BinaryFrameOnlyDispatches` | main.js:160-182 | a binary frame sends nothing, keeps keys and flag, and dispatches at most one event |
| `Client.OpenSendsJoin` | main.js:118-121 | `open` appends the join frame and changes nothing else |
| `Client.CloseKeepsKeys` | main.js:192-196 | `close` clears the flag and leaves the keys, the active id and the rest unchanged |
| `Client.ReceivePreservesConsistent` | main.js:123-186 | every message keeps the key invariant, and keeps the pipeline starts equal to the `tweet_full_update` deliveries |
| `Client.RunPreservesConsistent` | main.js:115-197 | the invariant holds after any sequence of callbacks |
| `Client.RunOnlyAppends` | main.js:115-197 | sent frames and dispatched events are only ever appended |
| `Client.KeyIdsNeverForgotten` | main.js:153 | a stored key id stays stored across all later callbacks, reconnects included |
| `Client.ReconnectKeepsKeys` | main.js:192-196 | `close` and `open` leave the key store unchanged, so frames decode as before |
| `Client.StepKeepsAuthBudget` | main.js:133-141 | apart from `close`, no callback changes (authenticate events sent) + (1 if the flag is clear) |
| `Client.AuthenticateAtMostOncePerConnection` | main.js:133-141 | with no `close` in between, at most one authenticate event is sent, and none once the flag is set |
| `Client.KeyBroadcastThenFrameAcrossReconnect` | main.js:150-181 | after a key broadcast, a close and a reopen, a frame sealed under that key is delivered to `handleMessage` |

## Left out

- AES-GCM itself, `importKey`, base64 decoding, `TextDecoder` and `JSON.parse` are foreign or library calls. They are parameters of `Client.Host`. Cipher properties, such as decryption inverting encryption or tampering being detected, are not stated.
- `sendCreateTx` and `generateTokenMetadata` (network, an AI model, keypair generation) are not modelled. A pipeline start is recorded as the payload `d` appended to `pipelineRuns`. Their asynchronous completion and failure handling are outside the model.
- The websocket transport, the 2-second reconnect timer, the `error` handler (it only logs) and console logging are not modelled. Each `open` is taken to follow a reconnect.
- Asynchronous interleaving is not modelled: each handler call runs to completion before the next. In the source, a key event suspends at `await importKey`, so a binary frame that arrives meanwhile sees the keys from before the event.
- `Frames.IndexOf`: positions count Unicode scalar values, while JavaScript `indexOf` counts UTF-16 code units, so the two differ after a character outside the Basic Multilingual Plane. The composition `substring(indexOf("["))` at main.js:144 still yields the same suffix.
- `Frames.Substring`: its start counts Unicode scalar values, not UTF-16 code units. Composed with `Frames.IndexOf` at main.js:144, the result is exact.
- `JsValues.Property`: only plain field names are modelled. `length` and index properties of strings and arrays are not, because the client never reads them.
- JavaScript objects and arrays used as `Map` keys compare by identity in the source and by value here. Fractional and non-finite numbers are reals here, and `NaN` is not represented. No JSON key id can match a frame id in these cases anyway.
- `test.js` is a linear script of HTTP calls and is not part of this model.
