# Circular Waveform — a Dafny model

Circular Waveform is a browser visualiser: while the microphone records, a
live ring is drawn from the analyser's frequency bins; each stop freezes the
current spectrum as a ring that is kept and redrawn every frame, each new ring
30 units outside the previous one. The canvas can be saved or mailed through
one of two small Express back ends: `server.js` (SQLite) and `api/server.js`
(Supabase).

This project models three parts of it:

- **Capture and rendering** (`public/script.js`), in `Waveform.dfy` and
  `Visualizer.dfy`. The module-level state (`audioContext`, `micSource`,
  `analyser`, `isRecording`, `waveforms`) is the class `Visualizer.Session`.
  `StartMic` and `StopMic` change it; `Animate` draws from it. The 2D context
  is the class `Waveform.Canvas`, which keeps the calls made on it in order.
  `CircularWaveform.Draw` emits one path vertex per frequency bin, in polar
  form: the fraction of a full turn and the distance from the centre.
  The amplitude `b / 255 * 100` is computed over `real`.
- **Request outcomes of the two servers** (`server.js`, `api/server.js`), in
  `Http.dfy`, `LocalServer.dfy` and `ApiServer.dfy`. Each route handler is a
  function. Its inputs are the request body (each field absent or a string,
  judged by JavaScript truthiness) and what the database and the mailer
  answered. Its result is the response together with the trace of effects it
  attempted (insert, then mail). `ServerVariants.dfy` states exactly where
  the two servers disagree, and what the page's own requests meet at each.
- **Attachment extraction** `imageData.split("base64,")[1]`, in `DataUrl.dfy`.
  It follows ECMAScript `String.prototype.split` with a non-empty string
  separator. An absent second piece (`undefined`) is `None`. For a base64
  data URL as section 3 of RFC 2397 writes it, the result is the payload.

External services are inputs to the model:
- Microphone setup is a `MicSetup`: granted, or the setup step that threw.
- Each analyser read is the byte sequence the analyser holds at that moment.
- Each `Math.random()` draw is a parameter.
- The database and mail results are booleans. The listing query result is a
  `QueryResult`.
- The PNG produced by `canvas.toDataURL` is given by its base64 text.

Three behaviours of the code worth knowing before reading the contracts:
- A failed mail after a stored row is answered differently by the two
  servers. `server.js` answers 200 and differs from success only in the
  message (server.js:101). `api/server.js` answers 500 (api/server.js:91).
  `ServerVariants.MailFailureVisibility` states this.
- `stopMic` stops the tracks and disconnects the source, but leaves
  `micSource` and `analyser` assigned (public/script.js:95-102). When setup
  fails at `createAnalyser` or `connect`, the new source stays assigned with
  live tracks. `stopMic` cannot release it afterwards, because it returns at
  once when not recording (public/script.js:82). The next successful
  `startMic` overwrites `micSource` (public/script.js:68) without stopping
  those tracks, so that stream stays open for the rest of the page; the ghost
  counter `leakedStreams` records it and `Visualizer.LeakAfterFailedConnect`
  shows the sequence. `Visualizer.Session.StartMic`
  states which fields each failing step leaves behind.
- The comment "stagger rings outward" (public/script.js:89) holds for the
  base circles only. A bin adds up to 100 units while the step is 30, so
  neighbouring rings can cross (`Visualizer.RingsCanCross`).

## Model

| member | source | states |
|---|---|---|
| `Waveform.Amplitude` | public/script.js:33 | a byte's amplitude lies in [0, 100]; it is 0 exactly for byte 0 and 100 exactly for byte 255 |
| `Waveform.AmplitudeMonotone` | public/script.js:33 | a larger byte gives a strictly larger amplitude |
| `Waveform.CircularWaveform.VertexAt` | public/script.js:31-37 | vertex i carries index i, a turn in [0, 1), and a distance between radius and radius + 100; the distance is exactly radius when the byte is 0 and exactly radius + 100 when it is 255 |
| `Waveform.CircularWaveform.Draw` | public/script.js:24-56 | draw appends exactly the ring's calls to the context: begin path, one vertex call per bin in index order, close path, then stroke with the radial gradient (radius * 0.8 to radius + 100, colours 1 and 2, line width 4) |
| `Waveform.PathOpsAt` | public/script.js:31-44 | the first n path calls are, in order, a moveTo for bin 0 and a lineTo for every later bin |
| `Waveform.DrawShape` | public/script.js:29-46 | a ring is len + 3 calls: beginPath, exactly one moveTo (to vertex 0), a lineTo for each of vertices 1 to len-1 in order, closePath back to vertex 0, stroke |
| `Waveform.TurnsIncrease` | public/script.js:32 | vertex angles strictly increase with the bin index, so the ring goes round once |
| `Waveform.SilentRing` | public/script.js:33-37 | an all-zero snapshot draws a perfect circle at the base radius |
| `Waveform.FullScaleRing` | public/script.js:33-37 | an all-255 snapshot draws a perfect circle at radius + 100 |
| `Visualizer.FrequencyData` | public/script.js:85-86 | a snapshot has exactly frequencyBinCount bytes |
| `Visualizer.ReadFrequencyData` | public/script.js:85-86 | a fresh Uint8Array(frequencyBinCount) filled by getByteFrequencyData holds exactly frequencyBinCount bytes: the analyser's bytes, excess dropped, missing ones zero |
| `Visualizer.Session.constructor` | public/script.js:12-14 | the page starts idle: no audio context, source or analyser, no stored waveforms |
| `Visualizer.Session.StartMic` | public/script.js:59-79 | while recording: a no-op, nothing changes. Otherwise the audio context exists afterwards and recording starts exactly when every setup step succeeds. A failure alerts with the error message, keeps recording off and keeps what the earlier steps assigned. Waveforms are untouched and the session invariant is kept. The leaked-stream count grows by one when `createMediaStreamSource` throws, or when a new source overwrites one with live tracks, and is otherwise unchanged |
| `Visualizer.LeakAfterFailedConnect` | public/script.js:66-72 | a start that fails at `connect`, a successful retry and a stop leave recording off and one ring stored, with exactly one stream leaked: the first attempt's source, overwritten while live |
| `Visualizer.Session.StopMic` | public/script.js:81-104 | when idle: a no-op. Otherwise exactly one ring is appended and earlier ones are untouched. The new ring holds frequencyBinCount bytes of the analyser, has radius 50 + 30 * old length and random hues. Tracks are stopped, the source is disconnected and recording is off; no stream is leaked |
| `Visualizer.Session.Animate` | public/script.js:106-129 | a frame appends: a full-canvas black fill, then the live ring (only if isRecording and an analyser exist), then every stored ring in array order |
| `Visualizer.Session.DrawLive` | public/script.js:112-123 | the live ring has the current analyser bytes, radius 50 + 30 * waveforms.length and the fixed live colours |
| `Visualizer.Session.DrawStored` | public/script.js:126-128 | the stored rings are drawn one after another, in array order |
| `Visualizer.ConsecutiveRadii` | public/script.js:89 | consecutive stored rings differ in radius by exactly 30 |
| `Visualizer.RingsCanCross` | public/script.js:33 | with a radius step of 30 and an amplitude range of 100, a loud bin of ring n lies outside the same bin of a quiet ring n + 1 |
| `Visualizer.LiveRingBecomesStored` | public/script.js:114-117 | the live ring's radius and bytes are those the next stop stores |
| `Visualizer.StoredOpsAppend` | public/script.js:126-128 | drawing two lists of rings one after the other is drawing their concatenation |
| `Visualizer.StoredOrder` | public/script.js:126-128 | ring k is drawn after all earlier rings and before all later ones |
| `Visualizer.StoredOpsLength` | public/script.js:126-128 | with every snapshot bins long, the stored rings' calls total length * (bins + 3), and the calls of rings 0 to k-1 total k * (bins + 3), so ring k's calls start at k * (bins + 3) |
| `Visualizer.SaveWaveform` | public/script.js:137-157 | saving always posts, whatever the email field holds, with the canvas data URL as a non-empty image |
| `Visualizer.CanvasAttachment` | public/script.js:5-8 | the canvas export (sized from the window at lines 5-8, taken at lines 143 and 181) is never empty, carries a `base64,` attachment exactly when the canvas has pixels, and for a base64 PNG that attachment is the PNG's text |
| `Visualizer.SendWaveformToEmail` | public/script.js:172-197 | an empty email alerts and makes no request; any other email is posted with the canvas data URL |
| `DataUrl.IndexOf` | server.js:82 | the separator search returns the first occurrence at or after the start, or none when there is none |
| `DataUrl.SplitJoin` | server.js:82 | split loses nothing: it yields at least one piece, and joining the pieces with the separator gives the string back |
| `DataUrl.SplitPiecesFree` | server.js:82 | no piece of a split contains the separator |
| `DataUrl.Split` | server.js:82 | `split` yields at least one piece, even for the empty string |
| `DataUrl.Attachment` | server.js:82 | `imageData.split("base64,")[1]` is undefined exactly when the search for "base64," finds nothing |
| `DataUrl.AttachmentAbsent` | server.js:82 | the attachment is undefined exactly when the data URL holds no "base64," |
| `DataUrl.AttachmentBetween` | api/server.js:74 | the attachment starts right after the first "base64,", stops at the next one or at the end, and contains none itself |
| `DataUrl.AttachmentOfDataUrl` | server.js:82 | for a base64 data URL whose media type has no comma, the attachment is exactly the base64 payload |
| `Http.Truthy` | server.js:42 | under JavaScript's `!x`, a field is falsy exactly when it is absent, null or the empty string |
| `LocalServer.ListWaveforms` | server.js:24-36 | a query error answers 500; otherwise 200 "success" with the rows unchanged; no effects |
| `LocalServer.SaveWaveform` | server.js:39-55 | a falsy email or image answers 400 "Missing email or image data" and stores nothing. Otherwise exactly one row (email, image) is inserted, answering 500 "Error saving to database" on an insert error and 200 "Waveform saved successfully!" otherwise. No mail |
| `LocalServer.SendWaveform` | server.js:57-104 | the same validation, with no effects on 400. A valid body inserts first; the mail, with the extracted attachment, is attempted exactly when the insert succeeded. A failed insert answers 500 "Error saving to database". The status is 200 exactly when the insert succeeded, whether or not the mail went out; only the message differs |
| `ApiServer.StoredEmail` | api/server.js:39 | a falsy email is stored as NULL; any other email verbatim |
| `ApiServer.ListWaveforms` | api/server.js:14-28 | a query error answers 500; otherwise 200 "success" with the data unchanged; no effects |
| `ApiServer.SaveWaveform` | api/server.js:30-47 | only a falsy image answers 400 "Missing image data", storing nothing. Otherwise one row (email or NULL, image) is inserted, answering 500 "Error saving to Supabase" on an insert error and 200 "Waveform saved successfully!" otherwise |
| `ApiServer.SendWaveform` | api/server.js:49-93 | both fields are required, else 400 with no effects. Insert first; mail exactly when the insert succeeded. A failed insert answers 500 "Error saving to Supabase". 200 "Waveform saved and email sent successfully!" exactly when insert and mail both succeeded; a failed mail answers 500 "Waveform saved, but…" after the row was stored |
| `ServerVariants.SaveOutcomesAgree` | server.js:42-53 | the two save handlers give the same outcome exactly when both fields are present and the insert succeeds |
| `ServerVariants.SaveStatusDiffers` | api/server.js:33-39 | the save status codes differ exactly when the image is present and the email is not: server.js answers 400 and stores nothing, api/server.js stores a NULL-email row |
| `ServerVariants.SendStatusDiffers` | api/server.js:82-92 | the two send handlers always attempt the same effects; their status codes differ exactly when the mail fails after a stored row (200 against 500) |
| `ServerVariants.MailFailureVisibility` | server.js:90-102 | by status code alone, server.js does not reveal a mail failure and api/server.js does |
| `ServerVariants.ClientSendAccepted` | public/script.js:172-197 | a send the page lets through from a canvas with pixels passes both servers' validation, and the mail's attachment is exactly the PNG's base64 text |
| `ServerVariants.ClientSendEmptyCanvas` | public/script.js:181 | from a zero-width or zero-height canvas the page posts `"data:,"`; both servers accept and store it, and a successful insert attempts a mail whose attachment content is undefined |
| `ServerVariants.ClientSaveWithoutEmail` | public/script.js:137-157 | a save with an empty email field is refused by server.js (400) and stored with a NULL email by api/server.js |

## Left out

- Pixel geometry: the cos/sin projection of each vertex and the canvas centre `width/2, height/2` are not modelled. Vertices are kept in polar form (turn fraction and distance), which is floating-point Canvas work.
- Floating point: amplitudes and turn fractions are exact reals, not IEEE doubles.
- Colour strings: `hsl(...)` values are kept as `Hsl` records, not formatted strings. The `Math.random()` draws are parameters.
- Visualizer.Session.StopMic: requires each random draw to lie in [0, 1). This is the range `Math.random()` guarantees, not a demand the page makes of its caller.
- Web Audio and media: `AudioContext`, `getUserMedia`, `createMediaStreamSource`, `createAnalyser`, `connect`, `getByteFrequencyData` and track stopping are foreign APIs. They appear as the `MicSetup` oracle, the analyser's current bytes and flags on `MicSource`.
- Audio context failure: `new AudioContext()` runs outside the `try` (public/script.js:62-64). If it throws, `startMic` rejects without an alert. The model takes the context creation to succeed.
- Leaked streams: an orphaned stream is only counted, in the ghost field `leakedStreams`. This covers the stream `getUserMedia` returned when `createMediaStreamSource` throws (public/script.js:68), and a source left live by a failed `createAnalyser` or `connect` that the next successful `startMic` overwrites. The model keeps only the current source, not the orphaned streams themselves.
- Concurrency: `startMic` awaits `getUserMedia`. A second click during that wait could run a second setup. The model treats each call as atomic.
- Scheduling: `requestAnimationFrame` rescheduling is not modelled; `Animate` is one frame.
- Client network and DOM: `fetch`, handling of the response and its alerts, the download link, `loadGallery`, the send button's label and disabled state, `resize` and `console` logging.
- PNG encoding: `canvas.toDataURL` is represented by the canvas size and the base64 text of the image; a canvas with no pixels gives `"data:,"` as the HTML standard requires, and the PNG's bytes are not modelled.
- Request bodies: a field is absent, null or a string. Numbers, booleans and objects in the JSON body are not modelled; a truthy non-string `imageData` would make `split` throw.
- Services: SQLite and Supabase are not modelled. This covers row ids, timestamps, the `createdAt DESC` ordering and the schema's NOT NULL constraint. SendGrid delivery is not modelled either. Their results are inputs.
- Mail fields other than recipient and attachment (`from`, `subject`, `text`, `html`, `filename`, `type`, `disposition`) are constants of the source and are not modelled.
- Framework: Express middleware, the 10 MB body limit, static files, the `/` route, `app.listen` and `module.exports`.
- sketch.js, database.js and api/database.js are not part of this model: they hold DOM construction and database connection setup.
