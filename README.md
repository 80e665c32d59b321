# ChatGPT prompt capture, modelled in Dafny

This project models a browser extension that saves every prompt typed into
ChatGPT as a text file. The extension has three scripts:

- **The content script** (`content.js`) runs inside the ChatGPT page. It
  keeps two variables: `isCapturing`, which starts on, and `promptCounter`.
  It attaches `keydown` listeners to the prompt textarea and `click`
  listeners to the send buttons, and rescans the page every two seconds.
  Each capture listener that runs, on Enter without Shift or on a click,
  reads the trimmed text of the field. If the text is not blank and
  capture is on, that listener counts the prompt and sends one
  `savePrompt` message, with a file name built from the ISO time. One
  Enter or one click can run several listeners (see "## Findings" and
  "## Left out").
- **The background script** (`background.js`) turns each `savePrompt` into
  a download. The file goes to `chatgpt-prompts/<filename>` and holds a
  fixed text record.
- **The popup** (`popup.js`) asks the active tab's content script for its
  status and renders it. It retries up to three times while the content
  script is unreachable. It also asks the content script to switch capture
  to the opposite of what the popup believes.

The Dafny modules follow the scripts:

- `Messages` holds the messages the scripts exchange.
- `Strings` holds the JavaScript string operations the code relies on:
  `trim`, `includes`, `repeat` and the decimal rendering of numbers.
- `Content` models `content.js` imperatively:
  - a `CaptureState` class holds the two variables and the log of messages
    sent;
  - `PromptField` and `SendButton` objects carry the listener counts and
    the `data-prompt-listener` marker.
- `Background` models `background.js` as pure functions that return the
  download request and the reply.
- `Popup` models `popup.js`:
  - the pure decisions are functions: page check, URL cutting, retry rule,
    minutes, and the status-to-view mapping;
  - the popup's `isCapturing` variable and the elements it updates are the
    fields of a `PopupState` class.
- `Flows` joins the three scripts: the route from an accepted prompt to the
  saved file, and a full toggle round trip.

Clock readings, page lookups, key events and the outcomes of browser
messaging are parameters. Each timer-driven step is a method call.

## Model

| member | source | states |
|---|---|---|
| Strings.Trim | content.js:48-49 | `trim()` yields a text no longer than its input; it is empty exactly when the input is all ECMAScript whitespace, and it begins and ends with a non-whitespace character otherwise |
| Strings.TrimIsSlice | content.js:49 | the trimmed text is a contiguous slice of the input, with only whitespace on either side |
| Strings.TrimIdempotent | content.js:13 | trimming an already trimmed prompt, as `capturePrompt`'s guard does, changes nothing |
| Strings.Includes | popup.js:144 | `includes` holds exactly when the pattern occurs at some index of the text |
| Strings.Repeat | background.js:16 | `'='.repeat(n)` has length n and holds only `=` |
| Strings.NatToString | popup.js:173 | the decimal text of a number is non-empty, all digits, has no leading zero, and denotes the number |
| Messages.Request.Action | background.js:7 | the `action` string is one of the four known names exactly for the four known request kinds |
| Content.SanitizeTimestamp | content.js:7-9 | the sanitised time has the ISO string's length; each `:` and `.` becomes `-` and every other character is kept |
| Content.SanitizedHasNoSeparators | content.js:8 | the sanitised time contains no `:` and no `.` |
| Content.PromptFilename | content.js:17 | the file name is `chatgpt-prompt-`, the sanitised time, and `.txt`, 19 characters longer than the ISO string |
| Content.FilenameSeparators | content.js:16-17 | the file name contains no `:`, and its only `.` is the one before `txt` |
| Content.Accepts | content.js:13 | a prompt passes the gate exactly when capture is on and the text is not all whitespace |
| Content.Emitted | content.js:12-25 | `capturePrompt` sends at most one message, and one exactly when the gate passes; that message is a `savePrompt` with the text unchanged, the file name from the first clock reading and the second reading as its timestamp |
| Content.FieldText | content.js:47 | the field text is `value` when that is non-empty and `textContent` otherwise; it is empty only when both are |
| Content.SettledPrompt | content.js:47-50 | a trigger passes nothing on for a blank field; otherwise it passes `(value \|\| textContent).trim()`, which is not blank |
| Content.Triggered | content.js:46-51 | one settled trigger sends at most one message, and one exactly when capture is on and the field is not blank; that message carries the trimmed field text |
| Content.EachTriggeredRefused | content.js:44-53 | when capture is off or the field is blank, the listeners of one event send nothing, however many there are |
| Content.EachTriggeredAccepted | content.js:44-53 | otherwise the listeners of one event send one `savePrompt` each, all with the same trimmed prompt, the k-th named and stamped from the k-th listener's own clock readings |
| Content.IsSubmitKey | content.js:45 | the key rule holds exactly for Enter without Shift |
| Content.OtherModifiersIgnored | content.js:45 | the key rule accepts only Enter, rejects Shift, and ignores Ctrl, Alt and Meta |
| Content.Respond | content.js:99-109 | `toggleCapture` sets the switch to `enabled` and answers `{success: true}`; `getStatus` answers the switch and the counter and changes nothing; any other action gets no answer and changes nothing |
| Content.MarkButtons | content.js:64-82 | every button found ends up marked; an unmarked button gets exactly one click listener, a marked one none, however often it is found; the marker-iff-one-listener invariant is kept |
| Content.MonitorSubmissionsAsWritten | content.js:36-86 | with no field the next run is in 1000 ms and nothing changes; with a field, the field receives one more keydown listener on every run, the buttons are marked and the next run is in 2000 ms |
| Content.MonitorSubmissions | content.js:36-86 | the same scan with the field marked like the buttons: the field receives a keydown listener only on the first run |
| Content.ScanTwiceAsWritten | content.js:36-86 | as written, a field found by two consecutive scans carries two keydown listeners |
| Content.ScanTwice | content.js:36-86 | with the marker, a field found by two consecutive scans carries one keydown listener |
| Content.CaptureState.constructor | content.js:3-4 | the script starts with capture on, the counter at zero and nothing sent |
| Content.CaptureState.CapturePrompt | content.js:12-28 | the log grows by exactly the messages `Emitted` gives and the counter by as many; the switch is unchanged; counter equal to messages sent is kept |
| Content.CaptureState.OnSettled | content.js:46-51 | one settled trigger appends exactly what `Triggered` gives |
| Content.CaptureState.RunListeners | content.js:44-53 | the listeners of one event, each with its own clock readings, append exactly what `EachTriggered` gives for the field as it is; nothing when the condition fails or the field is missing |
| Content.CaptureState.DispatchKeyDown | content.js:44-53 | one key press runs every keydown listener of the field, each with its own clock readings, when the key rule holds, and none otherwise; for a submitted non-blank prompt with capture on, the counter rises by the number of listeners |
| Content.CaptureState.DispatchClick | content.js:69-79 | one click runs every click listener of the button, each with its own clock readings, on the field looked up after the settle delay; nothing when the field is missing |
| Content.CaptureState.OnMessage | content.js:99-109 | the new switch and the answer are those of `Respond`; the counter and the log are unchanged |
| Content.EnterAfterTwoScansAsWritten | content.js:44-53 | as written, one Enter after two scans runs two listeners: the messages of one trigger with the first clock readings, then those of another with the second |
| Content.EnterAfterTwoScans | content.js:44-53 | with the field marked, the same events run one listener and send one trigger's messages |
| Content.DuplicateSave | content.js:44-53 | for a non-blank field the as-written run sends two `savePrompt` messages with the same trimmed prompt, each named and stamped from its own clock readings |
| Background.RecordContent | background.js:16 | the record is 74 characters longer than the timestamp and the prompt together. It starts `Timestamp: ` with the timestamp, then `\nPrompt: ` with the prompt verbatim. It ends with a blank line, fifty `=`, and `\n\n` |
| Background.DownloadPath | background.js:25 | the path is `chatgpt-prompts/` followed by the file name unchanged |
| Background.SavePromptToFile | background.js:13-27 | the download goes to the folder path with the record as its content and no save dialog |
| Background.OnMessage | background.js:4-11 | a request starts a download exactly when its action is `savePrompt`, and is answered exactly then; the answer is `{success: true}`, whatever the download's outcome |
| Popup.IsChatGPTPage | popup.js:136-145 | a missing or empty URL does not qualify; any other URL qualifies exactly when `chat.openai.com` or `chatgpt.com` occurs in it as text |
| Popup.DomainAnywhereQualifies | popup.js:144 | a URL with either domain name anywhere in it, path or query included, qualifies |
| Popup.DisplayUrl | popup.js:91-95 | a URL of at most 60 characters is shown unchanged; a longer one as its first 60 characters and `...`, 63 in all |
| Popup.DisplayUrlIdempotent | popup.js:92-93 | cutting a shown URL again changes nothing |
| Popup.ShouldRetry | popup.js:170 | a retry is scheduled exactly when fewer than 3 retries were made and the error mentions `Could not establish connection` |
| Popup.Minutes | popup.js:30 | the minutes shown are the largest m with m·60000 ≤ now − start |
| Popup.FromReply | content.js:102-107 | the popup sees `{success}` for a toggle answer and `{isCapturing, promptCounter}` for a status answer; neither carries `isInitialized` or `currentUrl` |
| Popup.ShownCount | popup.js:78 | the count shown is `promptCounter`, or 0 when there is none |
| Popup.IsError | popup.js:61 | an error is shown exactly for an error message that is present and non-empty |
| Popup.HasStatus | popup.js:71 | the status view applies exactly to a status object that carries `isCapturing` |
| Popup.ErrorView | popup.js:61-68 | the error view shows `Error`, the message and the inactive indicator; the toggle is disabled and labelled `Unavailable`; count and URL stay |
| Popup.ShownUrl | popup.js:91-95 | a non-empty `currentUrl` of the status replaces the URL element, cut to width; otherwise it stays |
| Popup.StatusView | popup.js:71-95 | status text, message, indicator, toggle label and class follow `isCapturing`; the toggle is enabled, the count is `promptCounter \|\| 0`, and the extension status is `Initialized` or `Loading` |
| Popup.LoadingView | popup.js:105-112 | the loading view shows `Loading` with no indicator class; the toggle is disabled and labelled `Loading...`; count and URL stay |
| Popup.Rendered | popup.js:57-113 | an error wins over a status; a status shows only when `isCapturing` is present; the toggle is enabled exactly in the status view; the last-update time is `now` |
| Popup.NoticeText | popup.js:153-181 | every message a status check can show instead of a status is non-empty, so each shows the error view |
| Popup.StatusDecision | popup.js:148-185 | a retry with the next count is scheduled exactly for the retryable error on a ChatGPT tab; a status is rendered exactly when a response arrived for a ChatGPT tab; otherwise the notice is: no tab, wrong page, not ready for a send error that is not retried, and no response for a delivery without a response |
| Popup.RetryChain | popup.js:170-173 | a status check and its retries make attempts one after another with rising counts; from count c there are at most 4 − c of them (one once c ≥ 3); every attempt but the last scheduled a retry |
| Popup.ChainStopsWithoutRetry | popup.js:170-176 | a chain that ends before the attempts run out ends at an attempt that scheduled no retry |
| Popup.AtMostThreeRetries | popup.js:170-176 | a check started by the popup makes at most four attempts, and only the first three can schedule a retry |
| Popup.TabUrlText | popup.js:157 | the URL element first shows the tab's URL, or `Unknown` when there is none |
| Popup.AfterTabQuery | popup.js:157 | once a tab is found, only the URL element changes, to the tab's URL text; with no tab nothing changes |
| Popup.ToggleSucceeded | popup.js:212 | a toggle succeeds exactly when a response arrived and its `success` is true; a send error never succeeds |
| Popup.PopupState.constructor | popup.js:23-24 | the popup starts believing capture is on and records its start time |
| Popup.PopupState.UpdateUI | popup.js:57-113 | the new view is `Rendered` of the old one; the popup's `isCapturing` takes the status's value in the status view and is kept otherwise |
| Popup.PopupState.GetCurrentStatus | popup.js:148-185 | the view is rendered from the tab's URL text and `StatusDecision`; the retry returned is the decision's |
| Popup.PopupState.RequestToggle | popup.js:188-207 | a request is made exactly when the toggle is enabled and the tab is a ChatGPT page; it asks for `enabled = !isCapturing` and shows the toggle disabled as `Updating...`; otherwise nothing changes |
| Popup.PopupState.OnToggleReply | popup.js:208-219 | a status refresh is asked for exactly when a response with `success` arrived, leaving the view as it is; otherwise the send-error or failure message is shown |
| Popup.PopupState.UpdateSessionTimer | popup.js:29-34 | the session time shown is `Minutes(now, start)`; nothing else changes |
| Flows.CaptureReachesDownload | content.js:12-25 | an accepted prompt becomes one download at `chatgpt-prompts/chatgpt-prompt-<sanitised time>.txt` whose record carries the prompt verbatim, and the request is acknowledged |
| Flows.DownloadPathShape | background.js:25 | the saved path starts with `chatgpt-prompts/chatgpt-prompt-`, ends with `.txt`, is 35 characters longer than the ISO string, and contains no `:` |
| Flows.ContentStatusShowsLoading | popup.js:87-89 | for the content script's status answer the popup enables the toggle, shows the counter and keeps the URL, and its extension status always reads `Loading` |
| Flows.ToggleAlwaysAcknowledged | popup.js:212 | the content script's answer to a toggle always counts as success in the popup |
| Flows.ToggleRoundTrip | popup.js:188-219 | after a toggle, the content script's answer and the status refresh, capture is the opposite of the popup's earlier belief. The counter and the log are unchanged, and the popup's flag, toggle label and count agree with the content script |

## Left out

- Page lookups are inputs. The textarea and send-button selectors, `querySelector` and `querySelectorAll` become a field that may be missing and the list of buttons each selector found (content.js:33, content.js:56-62).
- The `MutationObserver` that reruns `setupPromptMonitoring` after a URL change is not modelled (content.js:111-119). A rerun starts a second chain of scans and adds keydown listeners in the same way.
- Timers are explicit steps:
  - the 100 ms settle delay;
  - the 1000 ms and 2000 ms rescans, which are returned as delays;
  - the popup's 2000 ms retry, 500 ms refresh, 60 s session timer and 15 s status interval.
  Events that interleave during a delay are not modelled.
- The browser APIs are not modelled:
  - `chrome.runtime` and `chrome.tabs` messaging is modelled as requests and replies. The outcome of a send (`lastError` or a response) is an input.
  - of `chrome.downloads`, only the download request is modelled. Its outcome, the `Blob` and the object URL are not.
  - `chrome.storage` (the `onInstalled` default, background.js:39-45) is not modelled. Nothing in the core reads it.
- The clock is an input:
  - `capturePrompt` reads `new Date().toISOString()` twice, once for the file name and once for the `timestamp` field, so the model takes two strings. Their ISO format is not assumed.
  - `Date.now()` readings are integers of milliseconds.
  - `toLocaleTimeString()` is an input string.
- Content.CaptureState.DispatchClick: runs the listeners of one element only. Listeners that a click reaches by bubbling are not modelled. The icon selector `button svg[data-testid="send-button"]` and the enclosing-button selector `button:has(svg[data-testid="send-button"])` (content.js:60-61) mark and listen on both elements, so one click on the icon can capture twice.
- Content.CaptureState.RunListeners: each listener's clock readings are independent inputs; the model does not require later listeners to read later times, and the field is read once per event because the listeners run back to back.
- Content.CaptureState.OnMessage: `request.enabled` is a boolean. The script stores whatever value is sent, and no other sender exists here.
- Popup.DisplayUrl: counts Unicode scalar values, while `substring` counts UTF-16 code units. The two differ only for characters outside the Basic Multilingual Plane. The same holds for `Strings.Trim` and `Strings.Includes`.
- Popup.PopupState.UpdateSessionTimer: the element shows the minutes followed by `m`; the model keeps the number of minutes.
- Popup.ShownCount: `status.promptCounter` is an optional integer. JavaScript's truthiness of other values (NaN, strings) is not modelled.
- Popup.StatusView: the `lastInputValue` debug paragraph (popup.js:97-104) is not modelled. The content script never sends that field.
- The elements are assumed present. `updateStatusDisplay`'s early return when an element is missing, and the message colours, are left out (popup.js:116-133).
- The popup page's initial text comes from `popup.html`, which is not part of this model. The constructor takes it as a parameter.
- The debug request (`requestDebugInfo`, popup.js:41-54) only logs. The content script does not answer it, which `Content.Respond` captures.
- The following are user interface only and not modelled:
  - the double-click debug panel (popup.js:228-240) and its debug button (popup.js:17-21);
  - the keyboard shortcuts (popup.js:262-280);
  - the platform path guess (popup.js:243-259);
  - the shortcut hint (popup.js:282-294) and the feedback animation (popup.js:323-361);
  - the window error handler and the cleanup on close (popup.js:312-317, popup.js:357-361).
- Console logging is not modelled.
- Numbers are unbounded. `promptCounter` and the clock values are JavaScript doubles, which lose exactness above 2^53.
- `src/App.tsx` is a static page with no logic.

What the code does not do:

- The key rule checks only Shift. Ctrl, Alt and Meta are not looked at (`Content.OtherModifiersIgnored`).
- There is no deduplication window, no minimum length, no clearing of records and no counter reset. The counter only grows.
- The field is found by selector only, with no visibility test. The keydown listener reads the field it was attached to; only the click listener looks the field up again.

## Findings

| source | as written | input that shows it | evidently intended | confidence | as-written member | corrected member |
|---|---|---|---|---|---|---|
| content.js:44 | `monitorSubmissions` adds a new `keydown` listener to the textarea on every run. It reruns every 2 s, and nothing marks the textarea the way `data-prompt-listener` marks the buttons | capture on, a non-blank field found by two consecutive scans, one Enter: two `savePrompt` messages with the same prompt, so two files and a counter raised by 2 | one capture per Enter, as for the buttons | not executed | Content.EnterAfterTwoScansAsWritten | Content.EnterAfterTwoScans |
