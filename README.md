# Fan signal handler of the interactive broadcast front-end

This project models how the fan's broadcast view reacts to signals. Signals are
out-of-band messages that arrive over the real-time media service's signaling
channel during a live event. It covers three parts of
`src/components/Broadcast/Fan.js`:

- `signalListener`: decodes an inbound signal, finds out whether the sender
  declared itself a producer, and switches on the signal type. Each case does
  nothing or fires one action.
- `changeStatus`: starts the countdown (for `live`) or disconnects the media
  session (for `closed`). It then writes the new status into the shared event
  record in place and passes the record to the persistence callback
  `changeEventStatus`.
- the stream count computed in `render`.

Calls into the media service (`toggleLocalVideo`, `toggleLocalAudio`,
`changeVolume`, `disconnect`) and into the store (`showCountdown`,
`changeEventStatus`) are recorded as `Effect` values, in call order. The
in-place write of the status is recorded too (`WriteStatus`), because the event
record is shared with the store. So the log shows that the countdown or the
disconnect comes before the write, and the write comes before persistence.

Files:

- `js_values.dfy` (module `JsValues`): the JavaScript values `JSON.parse`
  yields. It also gives the outcome of `JSON.parse` on a signal's text
  (`WireText`: empty, not JSON, or a JSON value) and what reading a property
  yields (null throws a `TypeError`).
- `fan.dfy` (module `Fan`): the decoder (`Decode`), `changeStatus`
  (`ChangeStatusModel`) and the listener (`Listen`) as functions, and
  `TotalStreams`. Two classes hold the mutable state. `EventData` is the
  event record whose `status` is written in place. `FanView` holds that record
  and the effect log. Its methods `ChangeStatus` and `SignalListener` follow
  the source statement by statement and are proved equal to the functions.
- `fan_session.dfy` (module `FanSession`): the listener applied to a sequence
  of delivered signals (`Run`), and what such a session does as a whole.

Behaviour of the code that the model keeps:

- An absent or empty `data` decodes to `{}`. `from.data` is always parsed, so
  the following all throw before any effect: a null `from`, a missing, empty
  or malformed `from.data`, and metadata that parses to `null`.
- Every case is guarded by `fromProducer &&`, so a payload of `null` throws
  only when a producer's media case reads a field of it.
- `mute === 'off'` enables audio and `video === 'on'` enables video. Any other
  value, including a missing one, gives `false`. `changeVolume` passes the
  payload's `userType` and `volume` through unchanged, with `notify` always
  `true`.
- The four reserved tags (`signal:chatMessage`, `signal:privateCall`,
  `signal:endPrivateCall`, `signal:openChat`) have no `break` and fall through
  to `signal:finishEvent`. A producer sending any of them closes the event.
- No case reads the current status. A producer's `goLive` makes the event live
  from any status, including `closed`. Media commands are obeyed in every
  status. After any session, the status is the one commanded by the last
  producer `goLive` or closing signal (`FinalStatusIsLastCommand`).
- With no event record loaded, `changeStatus` still fires the countdown or the
  disconnect. The write that follows then throws a `TypeError`, and nothing is
  persisted.

Where the code differs from what a reader would commonly expect of such an
event lifecycle, the model follows the code:

- One would expect `closed` to be final, `goLive` to act only before the event
  is live, and media commands to act only while it is live. The code has none
  of these guards (`ReopenedAfterClose`).
- The chat and private-call tags are marked as not yet implemented, yet the
  code closes the event on them, because they fall through to `finishEvent`.
- One would expect an undecodable signal to be dropped quietly. The code throws
  out of the listener. What the transport does with that exception is outside
  the model. `Run` assumes that later signals are still delivered.
- The stream count is not always subscribers + 1. The code gives 1 when the
  store has no metadata yet, and NaN when the total does not parse.

## Model

| member | source | states |
|---|---|---|
| `JsValues.Parse` | src/components/Broadcast/Fan.js:54-55 | `JSON.parse` succeeds exactly on a JSON text and yields its value; an absent field (parsed as the text "undefined"), an empty string or a non-JSON string throws SyntaxError |
| `JsValues.Get` | src/components/Broadcast/Fan.js:55-56 | reading a property of `null` throws a TypeError; an object yields its own field or undefined; any other value yields undefined |
| `Fan.Decode` | src/components/Broadcast/Fan.js:53-56 | decoding succeeds exactly when `data` is not malformed and the sender metadata parses to a non-null value; a malformed `data` throws SyntaxError first; absent or empty `data` gives `{}`; `fromProducer` holds exactly when the metadata's `userType` is the string `producer` |
| `Fan.ChangeStatusModel` | src/components/Broadcast/Fan.js:82-88 | countdown exactly for `live`, disconnect exactly for `closed`, each at most once and before everything else; exactly one such effect (or none for other statuses) plus, with a record, exactly two more; with a record: the status write, then exactly one persistence call with the updated record; name and end image unchanged; with no record: TypeError after the countdown or disconnect, nothing written or persisted |
| `Fan.Listen` | src/components/Broadcast/Fan.js:53-80 | a decode failure throws with no effect; a non-producer signal does nothing and returns; an unrecognised type does nothing and, once decoded, returns normally; only a producer's recognised signal has effects; only goLive and the closing tags change the record; goLive is `changeStatus('live')` from any status; finishEvent and the four reserved tags are `changeStatus('closed')`; videoOnOff toggles video with `video === 'on'`, muteAudio toggles audio with `mute === 'off'`, changeVolume passes `userType`, `volume` and `true`; a null payload throws in those three |
| `Fan.TotalStreams` | src/components/Broadcast/Fan.js:93 | 1 before metadata exists; otherwise one more than the subscriber total, or NaN when the total does not parse; never below 1 for a non-negative total |
| `Fan.FanView.ChangeStatus` | src/components/Broadcast/Fan.js:82-88 | the log grows by exactly the effects of `ChangeStatusModel`, the record becomes its result, and the view keeps the same record object |
| `Fan.FanView.SignalListener` | src/components/Broadcast/Fan.js:53-80 | the log grows by exactly the effects of `Listen`, the record becomes its result, and the outcome is its outcome |
| `FanSession.UnauthorisedSessionIsInert` | src/components/Broadcast/Fan.js:56-76 | a session in which no signal is a producer's has no effect and leaves the record unchanged |
| `FanSession.UnrecognisedSessionIsInert` | src/components/Broadcast/Fan.js:77-78 | a session of unrecognised signal types has no effect and leaves the record unchanged, whoever sends them |
| `FanSession.FinalStatusIsLastCommand` | src/components/Broadcast/Fan.js:57-88 | on a loaded record, the final status is the one commanded by the last producer goLive or closing signal (the initial one if none); name and end image are kept |
| `FanSession.PersistedOncePerCommand` | src/components/Broadcast/Fan.js:58-87 | on a loaded record, the number of persistence calls in a session equals the number of producer goLive and closing signals |
| `FanSession.ReopenedAfterClose` | src/components/Broadcast/Fan.js:58-76 | a producer closing signal followed by a producer goLive leaves the event live |

## Left out

- React lifecycle and rendering are left out: `componentDidMount`, which binds
  the listener, the JSX of `render`, `FanHeader`, `FanBody` and `Loading`.
  They are user interface, not behaviour.
- `mapStateToProps` and `mapDispatchToProps` are left out. They wire the
  component to the Redux store. The model takes the event record and the
  broadcast state as already-read values.
- The `newBackstageFan` notification is left out. It is a toast and nothing
  calls it in this file.
- The media-service functions and `startCountdown` are not modelled, only
  recorded as effects. They are foreign calls, and the model does not capture
  their failures.
- The JSON grammar is not modelled. A signal's text is given by what
  `JSON.parse` does with it: `WireText`. JSON numbers are modelled as
  integers, not doubles.
- `parseInt` is not modelled. The subscriber total is given already parsed,
  with `None` standing for NaN. Reads of `meta.subscriber.total` that would
  throw are not modelled.
- Concurrency and delivery are outside the model. It covers one listener call
  at a time, in delivery order. What the transport does with an exception
  thrown by the listener is outside it too.
- `src/actions/auth.js` is not part of this model. Its asynchronous thunks call
  the identity provider, a token endpoint, local storage and
  `window.location`, and have no local logic.
