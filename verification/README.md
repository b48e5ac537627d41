# Ollama Monitor: a Dafny model of its decision logic

Ollama Monitor is a Windows system-tray application. Once a second it polls a local
Ollama server (`GET <api_url>/api/ps`) and reports which model is loaded. It shows the
result as one of three tray icons (red, blue, green), as the tooltip title, and as a
notification when the remembered status changes. It keeps a small JSON settings file: the startup
flag and the API base URL. A URL typed into the settings window is validated before it
is stored. A build helper turns the dotted version string into the integer tuple that
the Windows version resource needs.

This project models that logic as pure functions over immutable data and proves the
properties the application relies on:

- `wrappers.dfy` (`Wrappers`) holds `Option`, which stands for Python's value-or-`None`.
- `pytext.dfy` (`PyText`) models the parts of Python text handling the code uses:
  - `str.isspace`, `str.strip` and the substring test `in`;
  - `str(int)`, and `int(str)` in base 10, including signs, surrounding whitespace and
    `_` digit separators.
- `json.dfy` (`Json`) defines JSON values and the text `str()` gives them inside an
  f-string.
- `settings.dfy` (`Settings`) covers:
  - `load_settings`, with its defaults and the one-time migration from
    `api_host`/`api_port` to `api_url`;
  - the `api_url` property;
  - the validation and update step of `save_api_settings`;
  - the settings part of `toggle_startup`.

  A save is modelled as an event that carries the map to be written.
- `poller.dfy` (`Poller`) covers:
  - `get_running_models` as a step function. It takes the previous `last_status` and
    the outcome of the HTTP request, and returns the status text, the new `last_status`
    and the notification, if any;
  - an independent three-state view of the reply (`Classify`), with the lemma that
    relates the two;
  - the poll loop over a sequence of outcomes (`Run`).
- `tray.dfy` (`Tray`) covers `create_icon` and the per-tick rendering in
  `update_status`.
- `version_info.dfy` (`VersionInfo`) covers `create_version_tuple` (`str.split('.')`,
  `int` on each part, then a trailing 0) and its use for both `filevers` and `prodvers`.

The HTTP request is an input `Outcome`:

- `Response(code, body)`, whose body may be valid JSON or not;
- `Timeout`;
- `ConnectError`;
- `Unexpected`.

The shapes of a body that make the Python code raise are spelled out: a `models` entry
that is not an object, or that lacks `name`, `details` or `parameter_size`, and a
`models` value that is truthy but not a list. All of these reach the generic
`except Exception` branch, as they do in the source. `urlparse` is a parameter that
returns either the scheme and the network location or the message of the
`ValueError` it raises.

One might expect every status change to be announced and the icon to follow the
state; the code does otherwise, and the model follows the code:

- Status changes are not all announced. Only three branches record `last_status` and
  may notify: a 200 reply with no model, a 200 reply with a model, and a connection
  error. A non-200 reply, a timeout or any other exception shows
  "Ollama Not Running" silently and leaves `last_status` alone. So "notify exactly on a
  change of the shown status" does not hold. `Poller.TimeoutAfterModelIsSilent` exhibits
  this, and `Poller.StepMatchesClassify` states the exact rule.
- `models: null`, or any other falsy value, counts as "No Model Running", because the
  code tests truthiness.
- The icon is chosen by substring. A running model whose name contains
  "Ollama Not Running" is shown red (`Tray.ModelNamedLikeStatusIsRed`).
- The status entry of the tray menu is created with `enabled=True`.

## Model

| member | source | states |
|---|---|---|
| PyText.Strip | ollama_monitor.py:260 | `strip()` returns a slice of its input with only whitespace cut from either side, and the result neither starts nor ends with whitespace |
| PyText.StripIdempotent | ollama_monitor.py:260 | stripping an already stripped URL changes nothing |
| PyText.ParseInt | create_version_info.py:6 | `int()` succeeds exactly when the text holds no ASCII information separator (U+001C to U+001F, which `int()` does not skip although `isspace()` holds of them) and, once whitespace is stripped, is an optionally signed digit group (single underscores between digits) of at most 4300 digits, Python's default `int_max_str_digits`; the sign fixes the sign of the value |
| PyText.TooManyDigitsRejected | create_version_info.py:6 | a well-formed digit group of more than 4300 digits is refused |
| PyText.InfoSeparatorRejected | create_version_info.py:6 | `int("\x1c1")` fails |
| PyText.ParseIntOfDecimal | create_version_info.py:6 | `int(str(i)) == i` for every integer of at most 4300 digits, the ones `str()` renders |
| Settings.Migrate | ollama_monitor.py:386-391 | the legacy pair is removed, `api_url` becomes `http://{host}:{port}`, every other key keeps its value and no key is added besides `api_url` |
| Settings.Load | ollama_monitor.py:377-406 | a save is issued exactly for a missing file or a migrated legacy file, and it carries the loaded map; missing or unreadable files yield the defaults (`startup` false, `api_url` `http://localhost:11434`); a non-legacy file is used unchanged; no result still needs migrating |
| Settings.ApiUrl | ollama_monitor.py:543-549 | the property is the stored `api_url` when present and `http://localhost:11434` otherwise; its partner `Settings.ApiUrlAfterLoad` relates it to what was loaded |
| Settings.ReloadIsStable | ollama_monitor.py:379-400 | loading what a load produced again gives the same settings with no migration and no save |
| Settings.ApiUrlAfterLoad | ollama_monitor.py:543-549 | after loading, `api_url` is the default unless the file supplied a URL, and after migration it is the URL built from host and port |
| Settings.HalfLegacyUntouched | ollama_monitor.py:386 | with only one of `api_host`/`api_port` present, the map is used as is and nothing is saved |
| Settings.LegacyExample | ollama_monitor.py:386-391 | `{api_host: "x", api_port: "1"}` loads as `{api_url: "http://x:1"}` and is saved once |
| Settings.SaveApiUrl | ollama_monitor.py:257-284 | the entry is accepted exactly when `urlparse` of the stripped entry succeeds with a non-empty scheme and netloc; on acceptance the stripped entry replaces `api_url`, other keys are kept, the saved map is the new one and the success notice is shown; on rejection the settings are unchanged, nothing is written, and the error dialog shows "Invalid API URL: " followed by the parser's message when `urlparse` raised, or by "Invalid URL format" when a field was empty |
| Settings.SavedUrlIsStable | ollama_monitor.py:260-269 | the stored URL has no surrounding whitespace, and saving it again leaves the settings as they are |
| Settings.RejectedKeepsApiUrl | ollama_monitor.py:263-284 | a URL that `urlparse` rejects, or that lacks a scheme or netloc, leaves `api_url` unchanged, writes nothing and shows an error dialog |
| Settings.InvalidIpv6Shown | ollama_monitor.py:263-284 | when `urlparse` raises "Invalid IPv6 URL" the settings stay, nothing is written, and the dialog reads "Invalid API URL: Invalid IPv6 URL" |
| Settings.ToggleStartup | ollama_monitor.py:223-227 | the startup flag is stored, every other key is kept, and the new map is saved |
| Settings.ToggleKeepsApiUrl | ollama_monitor.py:223-227 | toggling startup never changes the API URL |
| Poller.Step | ollama_monitor.py:417-469 | the result is one of the status texts; `last_status` either stays or becomes the shown text; a notification fires exactly when `last_status` changes, with the text that announces the new status |
| Poller.ModelInfoIsDistinct | ollama_monitor.py:436-439 | a model's status text ends in ')' and so never equals "Ollama Not Running" or "No Model Running" |
| Poller.StepMatchesClassify | ollama_monitor.py:424-469 | the step shows the text of the three-state classification of the reply; it records that text exactly for a 200 reply that classifies to no model or a model, and for a connection error; it notifies exactly when such a text differs from the remembered one |
| Poller.FirstEntryOnly | ollama_monitor.py:434-445 | entries after the first never affect the result |
| Poller.ModelRunning | ollama_monitor.py:434-445 | a well-formed first entry shows `"<name> (<parameter_size>)"`, which is remembered and announced under that text when new |
| Poller.NoModelRunning | ollama_monitor.py:430-451 | an empty, missing or otherwise falsy model list shows "No Model Running", announced as "Model Stopped" when new |
| Poller.ConnectionRefused | ollama_monitor.py:460-465 | a connection error shows "Ollama Not Running", announced as "Ollama Service Stopped" when new |
| Poller.SilentOutcomes | ollama_monitor.py:424-469 | every untracked outcome (non-200 codes, timeouts, other exceptions, a body that is not a JSON object, a truthy non-list `models`, a malformed first entry) shows "Ollama Not Running" with no notification and `last_status` unchanged |
| Poller.RepeatNotifiesOnce | ollama_monitor.py:441-464 | the same outcome twice in a row notifies at most once and shows the same text |
| Poller.Llama3Example | ollama_monitor.py:430-445 | a reply with model `llama3` of size `8B` shows "llama3 (8B)" |
| Poller.TimeoutAfterModelIsSilent | ollama_monitor.py:456-465 | a timeout after a running model changes the shown text without notifying, and a later connection error announces the stop |
| Poller.Run | ollama_monitor.py:508-516 | the poll loop records one text, one starting `last_status` and at most one notification per tick, and tick k shows the text of the state its own outcome classifies to |
| Poller.RunTickIsStep | ollama_monitor.py:508-511 | tick k shows, announces and hands on exactly what `get_running_models` does from the `last_status` the earlier ticks left |
| Poller.RunTickStart | ollama_monitor.py:424-469 | tick k starts from the initial `last_status`, or from the one the previous tick left: that tick's text when its outcome was tracked, unchanged otherwise |
| Poller.RunTickNotifies | ollama_monitor.py:441-464 | tick k notifies exactly when its outcome is tracked and its text differs from the `last_status` it started from, with the announcement of that text |
| Poller.NoteForInjective | ollama_monitor.py:441-464 | distinct status texts are announced with distinct notification texts |
| Poller.RunNotesNoAdjacentRepeats | ollama_monitor.py:441-464 | over any sequence of outcomes, no two consecutive notifications are equal, and the first differs from the announcement of the status remembered at the start |
| Tray.CreateIcon | ollama_monitor.py:471-488 | red exactly when the text contains "Ollama Not Running"; blue exactly when it does not but contains "No Model Running"; green exactly when it contains neither |
| Tray.PollTick | ollama_monitor.py:510-515 | one tick polls once, sets the title to the text of the state the reply classifies to, and picks the icon `create_icon` gives that text; its partner `Tray.TickRendersState` relates the icon to the three states |
| Tray.TickRendersState | ollama_monitor.py:510-515 | each tick's tooltip title is the returned status text; the icon is red for an unreachable server, blue for no model, and green for a model whose text has neither phrase |
| Tray.StartingIsGreen | ollama_monitor.py:520-525 | the icon shown before the first poll ("Starting...") is green |
| Tray.ModelNamedLikeStatusIsRed | ollama_monitor.py:481-486 | a running model named "Ollama Not Running" is shown with the red icon |
| VersionInfo.Split | create_version_info.py:6 | `split('.')` gives one more piece than there are dots, and no piece contains a dot |
| VersionInfo.JoinSplit | create_version_info.py:6 | joining the pieces of a split with '.' restores the version string |
| VersionInfo.SplitJoin | create_version_info.py:6 | splitting a dot-join of dot-free pieces gives the pieces back |
| VersionInfo.ParseAll | create_version_info.py:6 | `map(int, parts)` succeeds exactly when every part is an integer literal, and element k is the value of part k |
| VersionInfo.CreateVersionTuple | create_version_info.py:4-6 | the tuple exists exactly when every dotted component is an integer literal; it has one more element than there are components, element k is the value of component k in order, and the last element is 0 |
| VersionInfo.TupleShape | create_version_info.py:6 | the tuple has one element per dot plus two, and ends with 0 |
| VersionInfo.VersionRoundTrip | create_version_info.py:4-6 | writing integers of at most 4300 digits each as a dotted version and converting it back gives those integers followed by 0 |
| VersionInfo.EmptyComponentFails | create_version_info.py:6 | "1..2" has an empty component, so the conversion fails |
| VersionInfo.FileInfo | create_version_info.py:8-18 | `filevers` and `prodvers` are both the tuple `create_version_tuple` returns for the version, with one element per dot plus two and a final 0; there is no version info when the tuple cannot be built |

## Left out

- The settings window's layout, centring, modal loop and GitHub link are tkinter UI
  glue.
- The registry work in `toggle_startup` is a Windows foreign call. Only the update of
  `settings['startup']` and the save are modelled.
- httpx client construction is a thin wrapper over a library. This covers the
  credentials taken from the URL, TLS and redirect options, `client.close` and
  `__del__`. The model also leaves out what happens when re-creating the client fails
  after an accepted URL has already been stored and saved.
- The background thread, the one-second sleep, the `should_run` flag, and the tray
  library's `run`, `stop` and `notify` are concurrency and tray-library concerns.
  `Poller.Run` replaces the loop by a finite sequence of outcomes.
- The tray menu (`create_menu`, `CustomMenuItem.render`) is rendering glue.
- Logging setup and rotation are outside the model.
- JSON encoding and decoding and the file writes of `save_settings` are outside the
  model. A save is an event that carries the map, and a failed write is not modelled
  because the code only logs it.
- A settings file whose top-level JSON value is not an object is not modelled. The
  file is modelled as missing, unreadable, or a decoded object.
- Json.PyStr: renders integers of any length, although Python's `str()` refuses more
  than 4300 digits, because a reply holding such an integer already fails to decode
  and so never reaches the rendering.
- Python's `str()` of floats, arrays and objects is not computed. `Json.Other` carries
  the rendered text.
- `urlparse` is a parameter; its parsing rules, and which inputs make it raise, are
  not modelled.
- PyText.ParseInt: accepts ASCII digits only, although Python's `int()` also accepts
  other Unicode decimal digits.
- The build script that runs PyInstaller is outside the model. So is writing the
  version-info text, apart from the reuse of the tuple for `filevers` and `prodvers`.
  The `__version__` module is not part of this model, so the version string is a
  parameter.
