# ShadowAuth passive verification, modelled in Dafny

ShadowAuth is a decoy login portal. It tells human visitors from bots by watching pointer movement, keystrokes and a hidden honeypot field, and by asking a scoring server for a verdict. This project models three parts of it:

- **The dashboard front-end** (`frontend/src/App.jsx`), module `DashboardApp`. The component is the class `DashboardApp.App`, with the same state as the source:
  - `mouseData`, a sample buffer that freezes at 50 entries;
  - `chartData`, a 20-point sliding window of displacements;
  - `logs`, a newest-first feed capped at 5;
  - `status`;
  - the single-shot flag `hasSentData`;
  - the pending 2500 ms timer, as a `deadline`.

  Time enters as a `now` parameter. The timer fires through `Tick(now, trap)`. `verifyUser` is split into `StartVerify`, which applies the guard and composes the payload, and `OnResponse` or `OnFailure`, which handle its completion. The displacement `Math.round(Math.sqrt(dx² + dy²))` is computed in integers. Its defining property is `r² - r < d ≤ r² + r`, or `r = 0` when `d = 0`.
- **The minimal front-end** (`frontend/src/app.js`), module `MinimalApp`. It has the same freezing buffer and single-shot guard, a 2000 ms timer that needs more than 5 samples, an unbounded list of keydown times, and the typing intervals derived from that list. The timer's callback closes over the `verifyUser` of the render that armed it, so a scan carries the keydown times as they stood at the last stored pointer sample (`timerTyping`). Keydowns after that sample, and every keydown after the buffer froze, are never sent.
- **The server** (`backend/app.py`), module `Server`. The routes `validate`, `login` and `predict`, and the Flask-Login user loader `load_user`, are total functions. A route's input is the request's JSON object, held as a `Json` datatype, together with the user table. `Truthy` gives Python's truthiness of such a value, which is what the routes' `if` tests use. A route's output is a status code and a body. The ML verdict of `predict` is a boolean input.

The shared parts sit in `Capture`: the sample record, the 50-sample freeze, the honeypot read and the scan payload. `Basics` holds `Option`, `Min` and `Take`.

Ghost fields record history that the source does not keep:
- `moves`: every pointer move;
- `points`: every chart point;
- `history`: every log line;
- `requests`: the number of scan requests;
- `inFlight`: whether a request is pending;
- `mounted`: when the component mounted, from which the first timer counts.

`Valid()` ties the real fields to them. The buffer is the first 50 moves. The chart is the last 20 points. The feed is the newest 5 log lines. A pending deadline is one quiet period after the buffer last changed. At most one request exists, and the status leaves "analyzing" only through that request's outcome.

Points worth knowing about the code:
- In `app.js`, a failed request sets the status to "Error connecting to server". In `App.jsx`, a failure only adds a log line.
- The `/predict` route never reads `honeypot_field`. A filled trap does not force a bot verdict there (`Server.PredictIgnoresPayload`); only `/validate` checks it.
- The buffer capacity is 50, the chart window 20 and the log cap 5.

## Model

| member | source | states |
|---|---|---|
| Basics.TakeStable | frontend/src/App.jsx:30-32 | once 50 samples are held, later moves never change the first 50 |
| Capture.RecordKeepsFirst | frontend/src/App.jsx:30-32 | storing a move into the first 50 moves gives the first 50 of the longer sequence, so the buffer never exceeds 50 and keeps arrival order |
| Capture.Record | frontend/src/App.jsx:30-32 | a move extends the buffer by exactly that sample while it holds fewer than 50, and leaves it as it was otherwise, so a buffer of at most 50 stays at most 50 |
| Capture.HoneypotValue | frontend/src/App.jsx:43 | the payload's trap value is the field's text, or "" when the field is missing |
| DashboardApp.RoundRootFrom | frontend/src/App.jsx:25-26 | the upward search returns a value meeting the rounding characterisation of the root |
| DashboardApp.RoundRoot | frontend/src/App.jsx:25-26 | `Math.round(Math.sqrt(d))` for whole `d`: `r² - r < d ≤ r² + r`, or 0 for 0 |
| DashboardApp.RoundedRootUnique | frontend/src/App.jsx:26 | at most one `r` meets that characterisation, so it defines the rounded root |
| DashboardApp.RoundRootOfSquare | frontend/src/App.jsx:25-26 | a whole distance is reported exactly |
| DashboardApp.Displacement | frontend/src/App.jsx:22-27 | 0 when nothing is stored, otherwise the rounded Euclidean distance to the newest stored sample; never negative |
| DashboardApp.FrozenDisplacement | frontend/src/App.jsx:23-24 | after the freeze, the distance is always measured from the 50th move |
| DashboardApp.Window | frontend/src/App.jsx:35 | `slice(-20)` keeps a suffix of length `min(20, n)` |
| DashboardApp.WindowSlide | frontend/src/App.jsx:35 | appending to the window and cutting it equals cutting the whole history, so the chart holds the latest `min(20, n)` points |
| DashboardApp.App.Store | frontend/src/App.jsx:29-32 | the buffer becomes `Record` of the old buffer; the timer is re-armed to the sample's time plus 2500 ms exactly when the buffer grew; the buffer stays the first 50 moves |
| DashboardApp.App.Plot | frontend/src/App.jsx:34-35 | the chart keeps showing the latest 20 points after one more point |
| DashboardApp.AddLog | frontend/src/App.jsx:16 | the new message comes first, at most 5 entries are kept, and the rest are the older entries in order |
| DashboardApp.AddLogNewest | frontend/src/App.jsx:16 | logging into the newest 5 lines gives the newest 5 lines of the longer history |
| DashboardApp.ResponseMessage | frontend/src/App.jsx:59-65 | the human line is "✅ User verified as Human"; otherwise the line is "⚠️ BLOCK: " followed by the reason |
| DashboardApp.App.constructor | frontend/src/App.jsx:8-13 | initial state: status analyzing, empty buffers, two initial log lines, flag clear, first timer due 2500 ms after mount |
| DashboardApp.App.HandleMouseMove | frontend/src/App.jsx:18-36 | the buffer records the move only below 50 and then re-arms the timer; the chart gains the move's displacement on every move, also after the freeze |
| DashboardApp.App.Log | frontend/src/App.jsx:16 | the feed becomes `AddLog` of the old feed and stays the newest 5 lines |
| DashboardApp.App.StartVerify | frontend/src/App.jsx:38-49 | sends only if the flag was clear, then sets it for good; when it sends, it logs "Analyzing patterns..." into the feed and the history; the payload is the stored buffer, empty typing data and the trap value; the chart points are unchanged |
| DashboardApp.App.Tick | frontend/src/App.jsx:72-77 | sends exactly when the timer is due, more than 10 samples are stored and nothing was sent before; sending happens at least 2500 ms after the buffer last changed and logs exactly one line; the chart points are unchanged |
| DashboardApp.App.OnResponse | frontend/src/App.jsx:59-65 | `is_human` true gives human and its log line; otherwise bot, with the reason logged; the history gains exactly that line and the chart points are unchanged |
| DashboardApp.App.OnFailure | frontend/src/App.jsx:66-68 | a failure only logs "❌ Connection Failed", into the feed and the history; the status stays analyzing, the flag stays set and the chart points are unchanged |
| DashboardApp.MountAndMoveOnce | frontend/src/App.jsx:22-35 | the first move after mounting is stored and draws one chart point of displacement 0, and re-arms the timer to 2500 ms |
| DashboardApp.MountAndMoveThree | frontend/src/App.jsx:72-77 | three moves are stored as exactly those samples, in order, with the timer due 2500 ms after the last |
| DashboardApp.MountAndMoveSix | frontend/src/App.jsx:72-77 | six moves are stored as exactly those six samples, in order, and keep re-arming the timer to the last move plus 2500 ms |
| DashboardApp.MountAndMoveEight | frontend/src/App.jsx:72-77 | eight moves are stored as exactly those samples, in order, with the timer due 2500 ms after the last |
| DashboardApp.MountAndMoveEleven | frontend/src/App.jsx:72-77 | the buffer is exactly the eleven samples, in order, and the timer is due 2500 ms after the last one |
| DashboardApp.ElevenMovesThenQuiet | frontend/src/App.jsx:72-77 | with eleven moves up to 1000 ms, nothing is sent at 3499 ms; at 3500 ms one scan goes out whose payload is exactly the eleven samples in order, no typing data and an empty trap value; a later firing sends nothing |
| MinimalApp.Intervals | frontend/src/app.js:34 | `n` timestamps give `max(0, n - 1)` intervals |
| MinimalApp.IntervalsAt | frontend/src/app.js:34 | interval `i` is `t[i+1] - t[i]`, the value the `map` callback computes for index `i` |
| MinimalApp.RebuildIntervals | frontend/src/app.js:34 | the first timestamp plus the running sums of the intervals give back every timestamp |
| MinimalApp.IntervalsSnoc | frontend/src/app.js:24-26 | each keydown adds exactly one interval, the gap since the previous keydown, at the end |
| MinimalApp.IntervalsNonNegative | frontend/src/app.js:34 | with a clock that never runs back, no interval is negative |
| MinimalApp.App.constructor | frontend/src/app.js:5-10 | initial state: status analyzing, empty buffers, flag clear, first timer due 2000 ms after mount |
| MinimalApp.App.HandleMouseMove | frontend/src/app.js:13-21 | the buffer records the move only below 50, in order, and then re-arms the timer, which closes over the keydown times of that moment |
| MinimalApp.App.HandleKeyDown | frontend/src/app.js:24-26 | every keydown appends its timestamp, without bound and without touching the timer |
| MinimalApp.App.StartVerify | frontend/src/app.js:29-41 | sends only if the flag was clear, then sets it for good; the payload is the stored buffer, the intervals of the calling render's typing data and the trap value |
| MinimalApp.App.Tick | frontend/src/app.js:58-63 | sends exactly when the timer is due, more than 5 samples are stored and nothing was sent before; at least 2000 ms after the buffer last changed; the intervals are those of the keydown times the timer's closure saw, a prefix of all keydowns |
| MinimalApp.App.OnResponse | frontend/src/app.js:49-50 | `is_human` true shows "✅ Human Verified", anything else "🤖 Bot Detected" |
| MinimalApp.App.OnFailure | frontend/src/app.js:51-54 | a failure shows "Error connecting to server" and keeps the flag set |
| MinimalApp.MountAndMoveThree | frontend/src/app.js:58-63 | three moves are stored as exactly those samples and re-arm the timer to the last move plus 2000 ms, with no keydowns captured |
| MinimalApp.MountMoveAndTypeFour | frontend/src/app.js:24-26 | a keydown before a move is captured by the timer that move arms; a keydown after it is stored but not captured |
| MinimalApp.MountMoveAndType | frontend/src/app.js:24-26 | keydowns between moves are recorded in order and do not move the timer; the timer holds the keydowns before the last move, not the one after it |
| MinimalApp.SixMovesAndTyping | frontend/src/app.js:58-63 | six moves and keydowns at 250, 380, 450 and 600 ms give one scan whose payload is exactly the six samples in order, the intervals [130, 70] and an empty trap value; the keydown after the last move is not sent; no second scan follows |
| Server.Validate | backend/app.py:43-63 | 403 "Access Denied" iff the trap field or click flag is truthy; otherwise 400 "Username is missing" iff the username is missing or empty; otherwise 200 "Human behavior detected"; `valid` is true exactly on 200 |
| Server.ValidateReadsThreeFields | backend/app.py:48-51 | requests that agree on username and the two honeypot fields get the same answer, whatever the counts hold |
| Server.HoneypotBeforeUsername | backend/app.py:53-59 | a filled trap field with no username gives 403, not 400 |
| Server.ScriptedHoneypotAttackRefused | backend/bot.py:12-25 | the bot script's honeypot request is refused with 403 |
| Server.Login | backend/app.py:67-81 | 200 "Login successful" with `user` = username iff the username is a key of the table and the password equals the stored one; otherwise 401 "Invalid credentials"; a list or dict username raises |
| Server.MockUserLogsIn | backend/app.py:75-81 | the mock user's credentials log in and a wrong password is refused |
| Server.LoadUser | backend/app.py:35-38 | a user with `id = user_id` iff `user_id` is in the table, else none |
| Server.LoginThenLoad | backend/app.py:35-38 | a username that logs in can be loaded back under the same id |
| Server.Predict | backend/app.py:110-121 | 403 with `is_human` false when the verdict is bot, 200 with `is_human` true otherwise |
| Server.PredictIgnoresPayload | backend/app.py:103-110 | the answer depends on the verdict alone; a filled trap field with a human verdict still gets 200 |

## Left out

- `backend/ml_model.py` and `backend/train_model.py` are not part of this model. Feature extraction is floating-point numerics, and the verdict comes from a trained classifier loaded from disk. `Server.Predict` takes that verdict as the boolean `isBot`.
- `backend/bot.py` is an HTTP client script. It serves only as a source of one concrete request (`Server.ScriptedHoneypotAttackRefused`).
- Rendering is not modelled: JSX, the chart and icon libraries, CSS, and the `Label` text of the minimal status beyond the four strings.
- Transport is not modelled: `fetch`, JSON encoding, URLs and HTTP errors. Each completion is a separate input event: `OnResponse` or `OnFailure`. The front-ends post to `/api/predict` while the server's route is `/predict`. Which of the two completions a real run would deliver is outside the model.
- `OnResponse` takes `is_human` already reduced to a boolean and `reason` as the text the template literal renders (a missing reason renders as "undefined").
- Flask plumbing is not modelled: CORS, file logging, the secret key, `app.run`, and the `logout` and `profile` routes. Flask-Login sessions, including `login_user`, are left out. `@login_required` on `/predict` is left out too: an unauthenticated call never reaches the route body.
- Exceptions raised inside `ml_model.predict_bot` (for example a `mouse_data` entry without `"x"`) would make `/predict` answer 500. `Server.Predict` takes a verdict that was already computed, so it cannot show that answer.
- Request bodies that are not JSON objects are not modelled. Flask's answer to them depends on its version.
- React scheduling is not modelled: batched `setState`, closures other than the timer's, and interleaving of asynchronous completions. Each handler, timer firing and completion is one atomic step. `Date.now()` and the honeypot element are parameters.
- Unmounting is not modelled. It would cancel the pending timer, and a completion that arrives after it is not distinguished.
- Pointer coordinates and timestamps are whole numbers.
- DashboardApp.RoundRoot and DashboardApp.Displacement round exactly. JavaScript computes `Math.sqrt` and `Math.round` in double precision, and the two disagree once the squared distance passes about 2^50: when the exact root lies just below r + 0.5 and r is at least 2^25, the double result is exactly r + 0.5 and `Math.round` gives r + 1 where the model gives r. `Math.pow` also loses exactness above 2^53. Screen coordinates keep the squared distance far below 2^50, so the model agrees with the source for every move a browser can report.
- The credential-gated three-phase flow, with focus, paste and clipboard counters, does not exist in these front-end files. Only its server side (`Server.Validate`, `Server.Login`) is modelled.
