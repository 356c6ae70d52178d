# BlinkAI session model

BlinkAI lets a user type by blinking. A detector backend turns eye blinks into
Morse dots and dashes, and the `VideoFeed` web component puts the results into
a transcript that it can send to an AI chat service. This project models two
parts of that in Dafny:

- **The `VideoFeed` session state** (`frontend/src/components/VideoFeed.js`).
  The class `VideoFeed.Session` has one field per state cell of the component
  except `accuracy`.
  It has one method per socket handler and one per button. The updaters those
  handlers pass to React's setters are pure functions:
  - `Transcript`: the text edits;
  - `Chat`: the newest-first chat history and the three ways a send can end;
  - `Telemetry`: the confidence percentage and the words-per-minute guard;
  - `JsText`: JavaScript's `trim()` and `split(/\s+/)`, which the word count uses;
  - `Morse`: the reference table of the 26 letters of International Morse Code,
    as in Recommendation ITU-R M.1677-1, Part I, section 1.1.1.
- **The blink classifier** (`backend/blink_detection/blink_detector.py`).
  The class `BlinkDetection.BlinkDetector` holds `blink_detected` and
  `blink_start_time`. Its `Detect` method is proved against the function
  `DetectBlink` over the faces of one frame. Over a stream of frames, lemmas
  prove that signals come only when a closed eye opens again, and that there
  is at most one signal per closure.

Inputs from outside the component are parameters:
- socket events arrive as method calls, with their payload fields as `Option`
  values (absent means `undefined` or `null`);
- `Date.now()` and Python's `time.time()` become an integer `now`, in
  milliseconds;
- the HTTP response becomes a `Chat.Outcome`;
- each face the detector sees becomes a `FaceReading(closed, now)`, where
  `closed` stands for `ear < EAR_THRESHOLD`.

These model points follow the code:
- **Start time.** The `blink_event` handlers are registered by an effect with
  empty dependencies (`VideoFeed.js:50-104`), so they see the first render's
  `startTime`, which is `null`. So `if (!startTime)` always passes, and every
  blink restarts the timer. `Session.handlerStartTime` is that captured
  `null`, and `OnBlinkEvent` ensures `startTime == Some(now)`. So the start
  time is restarted by every blink, not set once.
- **Word count.** `"   ".trim().split(/\s+/)` is `[""]`, so text made only of
  white space counts as one word, not zero (`JsText.WordCountIsTokenCount`).
- **Overlapping sends.** `handleSendToAI` does not reject a send while another
  is pending; only the disabled button (`VideoFeed.js:221`) prevents it. So
  `BeginSend` has no such guard. The ghost counter `inFlight` counts open
  requests, and `CompleteSend` requires one.
- **Sender names.** The senders are `"You"` and `"BlinkAI"`, and the
  confidence percentage is not clamped.
- **WPM effect.** The words-per-minute effect runs only when `decodedText`
  actually changed, because React compares dependencies by value. So a
  Backspace on empty text, or a missing letter, does not recompute it.

## Model

| member | source | states |
|---|---|---|
| `Base.OrEmpty` | frontend/src/components/VideoFeed.js:61 | defaulting a field to `""` gives the string when it is truthy and `""` when it is absent or empty |
| `JsText.Trim` | frontend/src/components/VideoFeed.js:110 | the result is the input with its leading and trailing white space removed (a slice `s[i..j]` with only white space before `i` and after `j`); it neither starts nor ends with white space, and it is empty exactly when the input is all white space |
| `JsText.IsBlank` | frontend/src/components/VideoFeed.js:134 | `!s.trim()` holds exactly when the text is empty or all white space |
| `JsText.Split` | frontend/src/components/VideoFeed.js:110 | `split(/\s+/)` always gives at least one piece; its contract gives only that bound, and `JsText.SplitPieces` gives the exact piece count |
| `JsText.WordCount` | frontend/src/components/VideoFeed.js:110 | `trim().split(/\s+/).length` is at least 1, and is 1 for empty or all-white-space text |
| `JsText.SplitPieces` | frontend/src/components/VideoFeed.js:110 | `split(/\s+/)` gives one more piece than there are maximal runs of white space |
| `JsText.WordsAfterTrim` | frontend/src/components/VideoFeed.js:110 | trimming keeps every word |
| `JsText.WordsAlternateWithRuns` | frontend/src/components/VideoFeed.js:110 | words and white-space runs alternate (a counting identity over any string) |
| `JsText.WordCountIsTokenCount` | frontend/src/components/VideoFeed.js:110 | the word count is the number of whitespace-separated words, except that text with no word counts as 1; there are no words exactly when the text is all white space |
| `JsText.TwoWords` | frontend/src/components/VideoFeed.js:110 | two words joined by one space count as 2 |
| `JsText.WordCountHelloWorld` | frontend/src/components/VideoFeed.js:110 | `"HELLO WORLD"` counts as 2 words |
| `Transcript.Backspace` | frontend/src/components/VideoFeed.js:83 | drops exactly the last character; empty text stays empty |
| `Transcript.AppendSpace` | frontend/src/components/VideoFeed.js:85 | keeps the text and adds exactly one `' '` at the end |
| `Transcript.AppendLetter` | frontend/src/components/VideoFeed.js:87 | keeps the text as a prefix and adds the letter verbatim at the end; a missing or empty letter leaves the text unchanged |
| `Transcript.Clear` | frontend/src/components/VideoFeed.js:172 | the result is empty whatever came before |
| `Transcript.LetterEvent` | frontend/src/components/VideoFeed.js:80-89 | `"BACKSPACE"` backspaces, `"SPACE"` adds a space, anything else is appended |
| `Transcript.PlainLettersConcatenate` | frontend/src/components/VideoFeed.js:80-89 | a stream of letter events with no sentinel appends its letters to the transcript, in order |
| `Transcript.BackspaceUndoesAppend` | frontend/src/components/VideoFeed.js:82-87 | a Backspace right after a one-character letter or a space restores the text |
| `Transcript.LetterScenario` | frontend/src/components/VideoFeed.js:80-89 | the events A, B, BACKSPACE, SPACE, C yield `"A C"` |
| `Chat.Prepend` | frontend/src/components/VideoFeed.js:138 | the new message comes first and the older entries are unchanged behind it |
| `Chat.ReplyText` | frontend/src/components/VideoFeed.js:147-163 | a truthy reply is used verbatim; a missing or empty reply gives `"No reply from AI."`; an error gives `"Error contacting AI."` |
| `Chat.ReplyTextNonEmpty` | frontend/src/components/VideoFeed.js:147-163 | every completion gives non-empty text, and the error text appears only on an error, or when the reply is that text |
| `Chat.PushReply` | frontend/src/components/VideoFeed.js:92-99 | `ai_reply` prepends an assistant entry only when the reply is truthy; otherwise the history is unchanged |
| `Telemetry.Round` | frontend/src/components/VideoFeed.js:63 | `Math.round`: the integer within half of `x`, with halves rounding up |
| `Telemetry.ConfidencePercent` | frontend/src/components/VideoFeed.js:62-66 | there is a percentage exactly when the event has a confidence, and it is within half of `c*100` |
| `Telemetry.ConfidenceExample` | frontend/src/components/VideoFeed.js:62-66 | a confidence of 0.873 gives 87; no confidence gives `null` |
| `Telemetry.WordsPerMinute` | frontend/src/components/VideoFeed.js:109-111 | the rate is non-negative, and rate times elapsed time equals the word count times one minute |
| `Telemetry.WpmExample` | frontend/src/components/VideoFeed.js:109-111 | `"HELLO WORLD"` one minute after the start reads 2.0 words per minute |
| `Telemetry.StartTimeSet` | frontend/src/components/VideoFeed.js:77 | `!startTime` is JavaScript truthiness: the start time counts as set exactly when it is present and non-zero (the same test guards the effect at line 107) |
| `Telemetry.RecomputeWpm` | frontend/src/components/VideoFeed.js:106-114 | with no start time, or with empty text, the prior reading is held; otherwise the reading records the word count and `now - startTime` |
| `Telemetry.RecomputedWords` | frontend/src/components/VideoFeed.js:107-110 | a recomputation records at least one word: the number of words, or 1 for text that is all white space |
| `Morse.Lookup` | frontend/src/components/VideoFeed.js:5-32 | a letter has a code exactly when the table lists it, and the code returned is the one listed |
| `Morse.ReverseLookup` | frontend/src/components/VideoFeed.js:5-32 | a code leads to a letter exactly when the table lists it, and the letter returned is the one listed with it |
| `Morse.MorseMap` | frontend/src/components/VideoFeed.js:5-32 | `MORSE_MAP` has exactly the keys A to Z, in alphabetical order |
| `Morse.CodesWellFormed` | frontend/src/components/VideoFeed.js:5-32 | every code is one to four characters, each `.` or `-` |
| `Morse.CodesDistinct` | frontend/src/components/VideoFeed.js:5-32 | no two letters share a code |
| `Morse.LookupInverse` | frontend/src/components/VideoFeed.js:5-32 | in any table with distinct keys and distinct codes, a letter's code leads back to that letter |
| `Morse.LookupRoundTrip` | frontend/src/components/VideoFeed.js:5-32 | every upper-case letter has a code, and its reverse lookup gives back that letter |
| `VideoFeed.Session.constructor` | frontend/src/components/VideoFeed.js:35-44 | the initial state: no blink, empty sequence and transcript, empty history, `null` confidence, not loading, count 0, WPM 0, no start time |
| `VideoFeed.Session.SetDecodedText` | frontend/src/components/VideoFeed.js:106-114 | sets the transcript; the WPM effect runs only if the text changed; no other cell changes |
| `VideoFeed.Session.OnBlinkEvent` | frontend/src/components/VideoFeed.js:58-78 | the count rises by exactly 1; the confidence is redefined (`round(c*100)` or `null`); the sequence becomes the event's sequence or `""`; the start time becomes `now`, so for a non-zero `now` the next text change recomputes the WPM; nothing else changes |
| `VideoFeed.Session.OnLetterEvent` | frontend/src/components/VideoFeed.js:80-89 | the transcript follows `Transcript.LetterEvent`, and the WPM is recomputed only if the text changed; nothing else changes |
| `VideoFeed.Session.OnAiReply` | frontend/src/components/VideoFeed.js:92-99 | the history follows `Chat.PushReply`; loading, the transcript and the telemetry are untouched |
| `VideoFeed.Session.HandleSpace` | frontend/src/components/VideoFeed.js:170 | adds one space and recomputes the WPM; nothing else changes |
| `VideoFeed.Session.HandleBackspace` | frontend/src/components/VideoFeed.js:171 | drops the last character and recomputes the WPM only if the text was non-empty |
| `VideoFeed.Session.HandleClear` | frontend/src/components/VideoFeed.js:172 | empties the transcript and keeps the WPM |
| `VideoFeed.Session.BeginSend` | frontend/src/components/VideoFeed.js:133-140 | blank or whitespace-only text changes nothing and sends nothing; otherwise loading starts, the untrimmed text is prepended as the `"You"` message, the transcript is cleared, and that text is the request |
| `VideoFeed.Session.CompleteSend` | frontend/src/components/VideoFeed.js:141-166 | exactly one `"BlinkAI"` entry is prepended (per `Chat.ReplyText`); older entries are unchanged; loading is false on every path |
| `BlinkDetection.StepFace` | backend/blink_detection/blink_detector.py:40-52 | a closed eye while not blinking starts a blink at `now`; a closed eye while blinking, and an open eye while not blinking, change nothing; an open eye while blinking ends the blink and signals DASH iff `now - start >= 400` ms, else DOT |
| `BlinkDetection.DetectBlink` | backend/blink_detection/blink_detector.py:33-53 | no face: no signal and no change; a signal from the first face ends the frame with that face's outcome, and a frame of one face (`max_num_faces=1`) has exactly the outcome of `StepFace`: a closed eye while not blinking starts a blink at `now`, and an open eye ending a blink gives DASH exactly when it lasted at least 400 ms; after a signal no blink is open, and the blink was open before or began in this frame; without a signal an open blink stays as it was |
| `BlinkDetection.BlinkDetector.constructor` | backend/blink_detection/blink_detector.py:13-19 | not blinking, start time 0; the constants are fixed fields that are never reassigned |
| `BlinkDetection.BlinkDetector.Detect` | backend/blink_detection/blink_detector.py:28-53 | the loop over faces, with its early returns, leaves the state and signal given by `DetectBlink` |
| `BlinkDetection.SignalOnReopening` | backend/blink_detection/blink_detector.py:45-53 | a single-face frame signals exactly when an open eye follows a closed one |
| `BlinkDetection.SignalsMatchClosures` | backend/blink_detection/blink_detector.py:41-52 | over any stream of single-face frames: signals + (blink open at end) = closures started + (blink open at start) |
| `BlinkDetection.AtMostOneSignalPerClosure` | backend/blink_detection/blink_detector.py:41-52 | from the initial state, over frames of at most one face (`max_num_faces=1`), there are never more signals than closures |
| `BlinkDetection.ClassificationExamples` | backend/blink_detection/blink_detector.py:47-52 | closures of 500 ms and 400 ms are dashes; a closure of 300 ms is a dot |

## Left out

- Socket connection, handler registration and disconnect (`VideoFeed.js:52-56`, `101-103`): transport plumbing. Events arrive here as method calls.
- The HTTP request to `/ask_ai` and its 30 s timeout (`VideoFeed.js:142-146`): only the outcome is modelled, as `Chat.Outcome`. A timeout is a `Failure`. How a reply's text is transported is not modelled, and a non-string `reply` is not modelled either.
- The `/calibrate` request and its alerts, webcam capture, and all rendering (`VideoFeed.js:117-130`, `174-333`): I/O and presentation. The rendering of `MORSE_MAP` uses the order of `Object.entries`, and the table keeps that order.
- Telemetry.WordsPerMinute: the division is over reals. `toFixed(1)`, IEEE rounding, and the JavaScript results for zero or negative elapsed time (`Infinity`, or 0 after `Math.max`) are not modelled. `Session.wpm` records the inputs of the last recomputation, the word count and the elapsed milliseconds, and not the displayed number.
- Transcript.Backspace: the text is modelled as a sequence of Unicode characters, not of UTF-16 code units. `slice(0, -1)` removes one code unit, so on text ending in a character outside the Basic Multilingual Plane the source leaves half a surrogate pair where the model removes the whole character. The detector only emits the letters A to Z.
- Telemetry.Round: `Math.round(c * 100)` is computed over reals, so floating-point products are not represented.
- The `accuracy` state cell (`VideoFeed.js:42`): a constant 100 that is never updated.
- Mutual exclusion of sends: the code enforces it only with the disabled button (`VideoFeed.js:221`). `BeginSend` therefore accepts a send while one is pending, as `handleSendToAI` does.
- React's batching of several updates into one render: each modelled event is followed by its own render and effect.
- `eye_aspect_ratio`, the mediapipe face mesh and the OpenCV conversion (`blink_detector.py:6`, `14`, `21-35`): foreign libraries and floating-point geometry. Each face is given as a boolean `closed` and a clock reading in integer milliseconds, so 0.4 s is 400 ms.
- BlinkDetection.SignalsMatchClosures: stated for frames with at most one face, the `max_num_faces=1` setting at `blink_detector.py:14`. `Detect` itself handles any number of faces.
- `frontend/src/App.js` (composition only) and `backend/app.py` (one static route): no session logic.
