# Sensor-state aggregator (server.js) in Dafny

`server.js` bridges an MQTT sensor network to an HTTP dashboard. It subscribes to nine
sensor topics under `mykmou/window25/sensor/`. It keeps the latest raw text of each channel
in one module-level map, `latestSensorData`. It serves a nine-field status snapshot on
`GET /api/status`. It forwards `open`/`close` commands from `POST /api/control` to the
`mykmou/window25/control` topic.

This project models those three parts:

- `js_string.dfy` (`JsString`): the JavaScript semantics the handlers rely on. These are
  `undefined` for a missing property, `||` on an optional string, and `String.prototype.replace`
  with a string pattern and an empty replacement (the leftmost match is cut out).
- `js_number.dfy` (`JsNumber`): `parseFloat` over exact reals, following the ECMAScript
  StrDecimalLiteral grammar. It skips leading white space, reads an optional sign, then
  `Infinity` or digits with an optional fraction and exponent, and ignores the rest. When
  no number starts the text it yields NaN. Also the `<` comparison, which is false for NaN.
- `topics.dfy` (`Topics`): the topic prefix, the subscribed topics, the control topic, and
  the channel-key rule `topic.replace(topicPrefix + 'sensor/', '')`.
- `state_store.dfy` (`StateStore`): the store as a `map<string, string>` and the effect of
  one inbound message (`Ingested`). It also covers a whole delivery history (`Replay`), with
  the last-write-wins lemmas.
- `snapshot.dfy` (`Snapshot`): the status body as a pure function `Compute` of the store,
  plus lemmas for every field's rule.
- `control.dfy` (`Control`): the allow-list check, the reply, and the messages published.
- `server.dfy` (`App.Server`): a class holding `latestSensorData` and the log of published
  messages. Its three methods are the three handlers. Node runs one handler at a time, so
  each method is one atomic step. `StatusSession` and `ControlSession` show dashboard
  sessions reasoned about from the contracts alone.

Behaviour that is modelled deliberately:

- `motion` is the OR of three conditions: vibration is `"1"`, sound is `"1"`, or the parsed
  distance is below 50. The stored `motion` channel is never read.
- Only a missing or empty distance is replaced by `'0'`, so an empty store shows motion
  as detected (`EmptyStoreSnapshot`). A non-empty distance that does not begin with a
  number yields NaN, so it never reports motion (`NonNumericDistanceIsNoMotion`).
- Display labels are the Korean constants of the source: 감지됨/없음, 열림/닫힘, 위험/안전,
  and `--` as the placeholder.

## Model

| member | source | states |
|---|---|---|
| JsString.Lookup | server.js:44-60 | a property read gives the stored value when the key is present and `undefined` (`None`) exactly when it is absent |
| JsString.OrElse | server.js:52 | `v \|\| fallback` on a string property: the stored text when present and non-empty, the fallback otherwise |
| JsString.RemoveFirst | server.js:38 | `s.replace(pat, '')` returns `s` unchanged or `s` shortened by exactly the length of `pat`; the position of the cut is given by RemoveFirstAt and RemoveFirstAbsent |
| JsString.RemoveFirstAt | server.js:38 | `replace` with a string pattern removes exactly the leftmost occurrence of the pattern |
| JsString.RemoveFirstAbsent | server.js:38 | `replace` leaves a string with no occurrence of the pattern unchanged |
| JsString.RemoveLeadingPattern | server.js:38 | removing a pattern the string starts with leaves the rest of the string |
| JsNumber.ParseFloat | server.js:46 | no ensures; `parseFloat` is specified by ParseFloatNaN, ParseFloatSkipsWhiteSpace and ParseFloatDigits |
| JsNumber.LessThan | server.js:49 | no ensures; `<` against the threshold is false for NaN and +Infinity, true for -Infinity, and the real comparison otherwise; used by MotionFromDistance and NonNumericDistanceIsNoMotion |
| JsNumber.ParseFloatNaN | server.js:46 | `parseFloat` is NaN exactly when the text, after white space and an optional sign, does not begin with `Infinity`, a digit or `.` and a digit |
| JsNumber.ParseFloatSkipsWhiteSpace | server.js:46 | leading white space never changes what `parseFloat` reads |
| JsNumber.ParseFloatDigits | server.js:46 | a non-empty run of digits, followed by nothing or by text whose first character is not a digit, `.`, `e` or `E` (such as `cm`), parses to the decimal value of the digits |
| Topics.ChannelKey | server.js:38 | the key is the topic itself or the topic shortened by exactly the length of `mykmou/window25/sensor/`; which one is given by ChannelKeyOfSensorTopic and ChannelKeyOfForeignTopic |
| Topics.ChannelKeyOfSensorTopic | server.js:38 | a message on `mykmou/window25/sensor/<k>` is filed under key `<k>` |
| Topics.SubscribedChannelKeys | server.js:11-22 | each of the nine subscribed topics is filed under the channel name that follows `sensor/` |
| Topics.ChannelKeyOfForeignTopic | server.js:38 | a topic that does not contain `mykmou/window25/sensor/` is used whole as its key |
| Topics.ChannelKeyInjective | server.js:38 | distinct channel names have distinct topics and are never filed under the same key |
| StateStore.Ingested | server.js:38-39 | after a message, its channel key holds the payload, the key set grows by that key only, and every other entry is unchanged |
| StateStore.IngestDuplicate | server.js:39 | filing the same message twice leaves the same store as filing it once |
| StateStore.IngestOverwrites | server.js:39 | of two writes to the same channel only the later survives |
| StateStore.IngestCommutes | server.js:39 | writes to different channels give the same store in either order |
| StateStore.ReplayLastWriteWins | server.js:37-39 | after any delivery history, a channel holds the payload of the last message delivered on it |
| StateStore.ReplayUntouched | server.js:37-39 | a channel no delivered message names keeps its earlier value or stays absent |
| StateStore.ReplayKeys | server.js:37-39 | entries are never deleted, and the only keys added are those of delivered messages |
| StateStore.ReplayDuplicate | server.js:39 | a duplicate delivery at the end of a history changes nothing |
| Snapshot.DistanceReading | server.js:46 | no ensures; `parseFloat(distance \|\| '0')`, specified by MotionWhenDistanceUnreported and NonNumericDistanceIsNoMotion |
| Snapshot.MotionDetected | server.js:49 | no ensures; the composite vibration OR sound OR distance below 50, specified by MotionFromDetection, MotionFromDistance and MotionChannelIgnored |
| Snapshot.Compute | server.js:51-61 | the snapshot never fails, and every label field is one of its two fixed labels |
| Snapshot.PassThroughFields | server.js:52-59 | temperature, humidity, distance and window_motor_state show the stored text when present and non-empty, `--` otherwise |
| Snapshot.DetectionLabels | server.js:44-58 | vibration, and independently sound, show detected iff the stored text is exactly `"1"`, not detected otherwise (absence included) |
| Snapshot.WindowAndDangerLabels | server.js:55-60 | window shows open iff the stored text is exactly `"open"`; danger shows danger iff it is exactly `"true"`; the negative label otherwise |
| Snapshot.AbsenceIsNegative | server.js:55-60 | an absent window or danger reading shows the same label as an explicit negative reading |
| Snapshot.MotionFromDetection | server.js:44-49 | a vibration or sound detection always shows as motion, whatever the distance |
| Snapshot.MotionFromDistance | server.js:46-49 | without vibration or sound, a reported distance shows motion iff its parsed value is below 50 |
| Snapshot.MotionWhenDistanceUnreported | server.js:46-49 | a missing or empty distance reads as 0, so motion shows as detected |
| Snapshot.MotionFromDistanceDigits | server.js:46-49 | without vibration or sound, a distance made of a non-empty run of digits, followed by nothing or by text whose first character is not a digit, `.`, `e` or `E`, shows motion iff the digits' value is below 50 |
| Snapshot.NonNumericDistanceIsNoMotion | server.js:46-49 | a reported distance that does not begin with a number reads as NaN and, without vibration or sound, never shows motion |
| Snapshot.SameReadChannels | server.js:43-61 | the snapshot depends only on the eight channels it reads |
| Snapshot.UnreadChannelsIgnored | server.js:43-61 | setting or removing any other channel, `motion` included, leaves the snapshot unchanged |
| Snapshot.MotionChannelIgnored | server.js:49-54 | the shown motion never depends on the stored `motion` channel |
| Snapshot.EmptyStoreSnapshot | server.js:43-61 | before any message: `--` for the four text fields, closed, safe, vibration and sound not detected, motion detected |
| Snapshot.IngestedReadingsShow | server.js:37-58 | after the handler files vibration `v` the next snapshot shows detected iff `v` is `"1"`; after window `w` it shows open iff `w` is `"open"` |
| Snapshot.DistanceExamples | server.js:46-54 | distance `10` alone shows motion; distance `100` alone does not |
| Snapshot.NonNumericExample | server.js:46-54 | distance `abc` alone does not show motion |
| Control.Allowed | server.js:66 | `['open', 'close'].includes(action)` holds exactly when the action is the string `open` or the string `close` |
| Control.Confirmation | server.js:68 | the confirmation text quotes the action between fixed text, so the action can be read back from it |
| Control.Reply | server.js:66-71 | the reply is 200 with the confirmation iff the action is exactly the string `open` or `close`; otherwise 400 with the refusal text |
| Control.Publishes | server.js:66-67 | a request publishes at most one message, exactly one iff the action is allowed, on `mykmou/window25/control` with the action as payload |
| Control.ReplyMatchesPublishes | server.js:66-71 | a request is confirmed exactly when it publishes one message and refused exactly when it publishes none |
| App.Server.constructor | server.js:24 | the store starts empty and nothing has been published |
| App.Server.OnMessage | server.js:37-41 | the store becomes the old store with the topic's channel key set to the payload; every other key is unchanged; the publish log is untouched |
| App.Server.GetStatus | server.js:43-61 | the reply is the snapshot of the store at that instant; no state changes, so two calls without a message in between reply alike |
| App.Server.PostControl | server.js:64-72 | the reply is `Reply(action)`; the publish log gains exactly the control message on success and nothing on refusal; the store is untouched |

## Left out

- Express setup, CORS, JSON body parsing, route registration and `app.listen` with the
  `PORT` default (server.js:1-8, 74-77): HTTP plumbing with no state.
- The MQTT connection and the subscribe loop with its per-topic error logging
  (server.js:10, 26-35): network calls and callbacks. The model starts from "a message
  (topic, payload) arrives".
- Console logging (server.js:27, 31, 40): output only.
- `message.toString()`: the UTF-8 decoding of the payload buffer. Payloads arrive as text.
- A payload on a topic whose key is `__proto__`: the assignment is silently ignored in
  JavaScript, because the `__proto__` setter does nothing with a string. The model stores
  an entry under `__proto__`, which the snapshot never reads. No subscribed topic
  produces that key.
- JsNumber.ParseFloat: finite values are exact reals, not IEEE doubles. A decimal within
  half a unit in the last place below 50 (such as `49.99999999999999999`) rounds to 50 in
  JavaScript and does not show motion. The model compares it exactly and shows motion.
  Overflow to Infinity and underflow to 0 are also not modelled.
- Concurrency: Node's event loop serialises handlers, so ingestion and snapshot are
  modelled as atomic sequential steps.
- The shape of the JSON request body beyond `action`: a missing `action` or a non-string
  one is the single case `None`, since `includes` only matches the strings `open` and
  `close`.
