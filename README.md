# AIAnywhere: the hotkey pipeline and the API-key check, in Dafny

AIAnywhere is a background tool. A global hotkey captures text, either the current selection through a simulated
ctrl+c or the clipboard's contents. The tool sends that text to the OpenAI chat completion service, writes the
answer back to the clipboard, and possibly pastes it. At startup the tool obtains an API key, from a key file or
from a small prompt window, reads its settings and binds its hotkeys.

This project models two pieces of that decision logic, each over recorded effects rather than real I/O. Each has
its own module.

- `AiAnywhere` (aianywhere.dfy) covers main.py.
  - `GetChatGptResponse` and `ProcessTextInput` are functions of the captured text, the key, the timeout and a
    completion *oracle*. The oracle is a total function from requests to replies. A reply is content (a string or
    None), a `RequestException`, or another exception.
  - The class `App` holds the mutable globals touched by the hotkey actions and by startup:
    - the clipboard, one slot holding a string or None;
    - `openai_timeout`;
    - a trace of effects: notifications, service calls, key chords, sleeps, clipboard reads and writes, and hotkey
      registrations.
  - Its methods are the three hotkey actions, `copy_text_to_clipboard`, the settings loop and the hotkey loop.
- `ApiKeyCheck` (apikeycheck.dfy) covers apikeycheck.py.
  - `MatchesKeyPattern` is the key format `^sk-[a-zA-Z0-9\-]+$`, written out over characters.
  - `ReadApiKey` is `read_api_key` over a key-file slot. The slot is absent (None) or holds the file's text.
  - The prompt loop reads a sequence of window events: `Closed`, or OK pressed with the text in the input box.
  - The class `KeyStore` holds the key-file slot and the effects the user sees. Its methods are
    `prompt_for_api_key` and `perform_api_key_check`.
- Two modules supply the parts of Python the code relies on:
  - `PyStr` (pystr.dfy) models `str.strip()`.
  - `PyInt` (pyint.dfy) models `int(str)` in base 10.
- `Wrappers` (wrappers.dfy) holds `Option`.

In four places the code does less, or something else, than a reader might expect of such a tool. The model
follows the code each time.

- **The empty-input guard.** A reader might expect any blank capture to be skipped. The code tests only for
  `''` and `' '` (main.py:146). `"  "`, `"\n"` and every other whitespace string are sent to the service, as
  `WhitespacePromptsAreSent` shows.
- **None is passed to the clipboard.** Every hotkey action passes whatever `process_text_input` returned to
  `pyperclip.copy`, None included, and two of them call ctrl+v after it (main.py:175, 186, 195). The model
  assumes the copy completes.
- **A malformed payload raises.** Only a `requests.RequestException` becomes None (main.py:114-116). A payload
  without `choices` raises KeyError, which escapes `get_chatgpt_response` and the hotkey action
  (main.py:118-119). The model has a `Raises` outcome for this case, and after it the action writes nothing.
- **No startup guard.** The key check's docstring says it ensures "that a valid API key is obtained before
  continuing" (apikeycheck.py:8). It returns None when the prompt window is closed (apikeycheck.py:51-54).
  main.py:36 stores that result untested, and startup goes on to register the hotkeys. `App` takes the key as an
  `Option<string>`.

## Model

| member | source | states |
|---|---|---|
| PyStr.IsSpace | main.py:153 | the characters str.strip() removes: str.isspace(), the ASCII controls 0x09-0x0D and 0x1C-0x1F, the space, and the Unicode spaces and separators |
| PyStr.NoEdgeSpace | main.py:153 | neither the first nor the last character is whitespace |
| PyStr.LStrip | main.py:153 | the result is a suffix of the input, everything removed is whitespace, and it does not start with whitespace |
| PyStr.RStrip | main.py:153 | the result is a prefix of the input, everything removed is whitespace, and it does not end with whitespace |
| PyStr.Strip | main.py:153 | the result is no longer than the input and has no whitespace at either edge |
| PyStr.StripTrims | apikeycheck.py:24 | Strip removes whitespace at the front and at the back and nothing else: the result is a slice of the input with only whitespace around it |
| PyStr.TrimsUnique | apikeycheck.py:24 | two such trimmings with no whitespace at their edges are equal |
| PyStr.StripIsTheTrimming | main.py:153 | Strip is the only trimming of a string that leaves no whitespace at its edges |
| PyStr.StripKeepsEdgeless | main.py:153 | a string with no whitespace at either edge is left unchanged by Strip |
| PyStr.StripIdempotent | main.py:153 | stripping twice gives the same string as stripping once |
| PyInt.ParseInt | main.py:208 | int(value) in base 10: surrounding whitespace, an optional sign and ASCII digits with single underscores between digits; anything else is the ValueError, None |
| PyInt.NatDigits | main.py:208 | the decimal digits of a natural number form a valid digit run |
| PyInt.NatDigitsValue | main.py:208 | the digit run of n denotes n |
| PyInt.ParseIntRoundTrip | main.py:208 | int() reads str(n) back as exactly n, negative numbers included |
| AiAnywhere.GetChatGptResponse | main.py:92-119 | exactly one service call with model gpt-3.5-turbo, the prompt, the key and the current timeout; it returns the reply's content unchanged, returns None on a RequestException, and raises exactly when the reply is another exception |
| AiAnywhere.IsIgnoredInput | main.py:146 | the guard: exactly the captures `''` and `' '` |
| AiAnywhere.ProcessTextInput | main.py:142-157 | no effect at all exactly when the input is `''` or `' '`, and then None is returned; a returned string has no whitespace at either edge |
| AiAnywhere.ProcessTextInputReply | main.py:146-157 | for any other input: the processing notice, exactly one service call, then the complete notice only on success; it succeeds exactly when the reply has content, and then returns that content stripped; it raises exactly when the reply is an exception other than RequestException |
| AiAnywhere.ProcessedTextIsStripped | main.py:150-154 | the delivered text is a fixed point of strip: stripping it again changes nothing |
| AiAnywhere.WhitespacePromptsAreSent | main.py:146 | the prompts `"  "` and `"\n"` are sent to the service: the guard is not a whitespace test |
| AiAnywhere.ProcessTextInputEffects | main.py:142-157 | processing presses no key, does not sleep and does not touch the clipboard; it calls the service once, or not at all for an ignored input; the complete notice occurs exactly when a string is returned |
| AiAnywhere.AnnouncedCallEffects | main.py:147-151 | an announced and sent prompt's effects hold the service call once and no chord, sleep or clipboard access; the complete notice occurs exactly on delivery |
| AiAnywhere.ApplySettings | main.py:206-210 | the settings loop from a given timeout: each openai_timeout entry assigns int(value), other names are skipped, and a value int() rejects raises and ends the loop |
| AiAnywhere.ApplySettingsStep | main.py:206-210 | one turn of the settings loop: other names skip, openai_timeout assigns int(value), and a value int() rejects raises |
| AiAnywhere.ApplySettingsAppend | main.py:206-210 | the loop over a + b is the loop over a and then, unless that raised, the loop over b from the timeout it left |
| AiAnywhere.OtherSettingsIgnored | main.py:209-210 | settings other than openai_timeout leave the timeout as it was and never raise |
| AiAnywhere.LastTimeoutWins | main.py:206-208 | when the loop completes, the last openai_timeout entry's value is an integer and it is the final timeout |
| AiAnywhere.SettingsRaiseIff | main.py:208 | the loop raises exactly when some openai_timeout value is not an integer for int() |
| AiAnywhere.CallbackFor | main.py:218-225 | an action name has a callback exactly when it is print_highlighted_text, print_from_clipboard or process_clipboard |
| AiAnywhere.Registrations | main.py:217-226 | no more registrations than configured pairs, and every one is a hotkey registration |
| AiAnywhere.RegistrationsStep | main.py:217-226 | one turn of the hotkey loop: one registration for a known action name and none for any other name |
| AiAnywhere.RegistrationsAppend | main.py:217 | the pairs are handled one by one, in order: the registrations of a + b are those of a, then those of b |
| AiAnywhere.RegistrationOfPair | main.py:218-226 | one pair registers exactly one binding of its hotkey to the matching callback, or nothing for an unknown name |
| AiAnywhere.App.constructor | main.py:36-38 | the key is whatever the key check returned, None included; the timeout starts at 120 and the trace is empty |
| AiAnywhere.App.LoadSettings | main.py:205-210 | the timeout ends as the settings loop leaves it, and the result is false exactly when int() raised |
| AiAnywhere.App.RegisterHotkeys | main.py:215-226 | the trace grows by exactly the registrations of the configured pairs, in order |
| AiAnywhere.App.Start | main.py:205-226 | settings first; if they loaded, the clipboard is set to `''` before any hotkey is registered; a ValueError stops startup before the clipboard is touched |
| AiAnywhere.App.ReadClipboard | main.py:173 | returns the clipboard and records the read |
| AiAnywhere.App.WriteClipboard | main.py:175 | sets the clipboard to the value, None included, and records the write |
| AiAnywhere.App.ProcessText | main.py:174 | runs process_text_input with the current key and timeout and appends its effects to the trace |
| AiAnywhere.App.CopyTextToClipboard | main.py:160-166 | the clipboard holds the text, and the trace gains the write and then one ctrl+v |
| AiAnywhere.App.ProcessClipboardText | main.py:169-175 | one clipboard read, the processing effects, then a write of whatever processing returned, None included; no chord; nothing is written if processing raised |
| AiAnywhere.App.PrintHighlightedText | main.py:178-186 | ctrl+c, a 500 ms sleep, one read, the processing effects, then the write of the returned value and ctrl+v, whether or not a completion came back |
| AiAnywhere.App.PrintTextFromClipboard | main.py:189-195 | the same as print_highlighted_text without the copy and the sleep: read, process, write, paste |
| AiAnywhere.HighlightedCounts | main.py:182-186 | in a print_highlighted_text trace, ctrl+c and the sleep occur exactly once each, and ctrl+v once exactly when processing returned |
| AiAnywhere.ChordCounts | main.py:164-165 | around a middle part with no chord and no sleep, the copy, the wait and the paste are counted as in HighlightedCounts |
| ApiKeyCheck.KeyCharRun | apikeycheck.py:25 | the greedy run of `[a-zA-Z0-9\-]` from a position: every character in it is a key character, and the next one is not |
| ApiKeyCheck.MatchesKeyPattern | apikeycheck.py:25 | re.match of `^sk-[a-zA-Z0-9\-]+$`: "sk-", the greedy run of at least one key character, then the end or one final `'\n'` |
| ApiKeyCheck.KeyCharRunIsMaximal | apikeycheck.py:25 | any maximal run of key characters from a position is the greedy run |
| ApiKeyCheck.MatchesKeyPatternExactly | apikeycheck.py:25 | the matcher accepts exactly "sk-" followed by one or more key characters, optionally followed by one `'\n'` (Python's `$`) |
| ApiKeyCheck.MatchIsInLanguage | apikeycheck.py:57 | every accepted string is in the pattern's language |
| ApiKeyCheck.LanguageIsMatched | apikeycheck.py:57 | every string in the pattern's language is accepted |
| ApiKeyCheck.KeyHasNoEdgeSpace | apikeycheck.py:25 | an accepted key starts with a non-space, and its last character, or the one before a final `'\n'`, is not whitespace |
| ApiKeyCheck.KeyHasNoInnerSpace | apikeycheck.py:25 | an accepted key holds no whitespace except possibly one final `'\n'`: every character before the last is not whitespace, nor is the last unless it is that `'\n'` |
| ApiKeyCheck.ReadApiKey | apikeycheck.py:15-29 | None when the file is absent; a key exactly when the file's stripped text matches the pattern, and then that stripped text |
| ApiKeyCheck.ReadKeyHasNoNewline | apikeycheck.py:24-26 | a key read from the file is "sk-" followed by key characters only: stripping removed any final `'\n'` |
| ApiKeyCheck.EdgelessKeyIsPrefixAndBody | apikeycheck.py:24-25 | an accepted string that does not end in whitespace is "sk-" followed by a key body |
| ApiKeyCheck.SavedKeyIsReadBack | apikeycheck.py:22-26 | a key the prompt saved is read back from the file as the same key, without the one `'\n'` the pattern lets through |
| ApiKeyCheck.Popups | apikeycheck.py:64-66 | n popups of the same message |
| ApiKeyCheck.PromptLoop | apikeycheck.py:49-66 | a key the loop ends with matches the pattern |
| ApiKeyCheck.PromptSession | apikeycheck.py:48-68 | the window is opened first, and the outcome is the loop's |
| ApiKeyCheck.PromptLoopWritesOnce | apikeycheck.py:59-62 | the loop writes the key file at most once, only with the key it returns, and not at all otherwise |
| ApiKeyCheck.PromptSessionWritesOnce | apikeycheck.py:48-68 | opening and closing the window write nothing: the whole prompt writes the file at most once, with the returned key |
| ApiKeyCheck.PromptLoopSkips | apikeycheck.py:57-58 | events before the first one that ends the loop only add invalid-key popups and write nothing |
| ApiKeyCheck.PromptLoopEndsAtFirstEnd | apikeycheck.py:51-62 | the loop ends at the first Closed or valid OK: None after the key-required popup, or that OK's text after the file write |
| ApiKeyCheck.PromptLoopWaits | apikeycheck.py:49-66 | with no Closed and no valid OK the loop is still waiting, having shown one popup per OK |
| ApiKeyCheck.FirstEndExists | apikeycheck.py:49-62 | if some event ends the loop, there is a first one |
| ApiKeyCheck.PromptReturnsNoneIff | apikeycheck.py:49-68 | the prompt returns None exactly when Closed comes before any valid OK |
| ApiKeyCheck.PromptReturnsFirstValidKey | apikeycheck.py:55-62 | the prompt returns a key k exactly when the first event that ends the loop is OK with text k |
| ApiKeyCheck.KeyCheckOutcome | apikeycheck.py:71-78 | the result is None or a key that matches the pattern; if the file yields a key, that key is the result unchanged |
| ApiKeyCheck.KeyStore.constructor | apikeycheck.py:22 | the key file is the given slot and nothing has been shown yet |
| ApiKeyCheck.KeyStore.ReadKey | apikeycheck.py:15-29 | returns read_api_key of the current key file, a key that matches the pattern or None |
| ApiKeyCheck.KeyStore.PromptForApiKey | apikeycheck.py:32-68 | the outcome and the effects are those of the prompt session; the key file changes only to a returned key |
| ApiKeyCheck.KeyStore.ReadEvents | apikeycheck.py:49-66 | the while loop's outcome and effects, one event per turn; the key file changes only to the key it ends with |
| ApiKeyCheck.KeyStore.PerformApiKeyCheck | apikeycheck.py:71-78 | when the file yields a key, that key is returned and nothing is shown or written; otherwise the prompt runs, and the returned key, if any, is the one saved |

## Left out

- HTTP, JSON and the service itself (main.py:96-119) are the oracle. The model keeps the request's model name,
  prompt, key and timeout, and the three kinds of reply. It leaves out the headers, the body encoding,
  `raise_for_status` and how `requests` enforces the timeout.
- Notifications, pyautogui chords, `time.sleep`, pyperclip and `keyboard.add_hotkey` are effects in a trace. The
  model assumes each completes. Their own failures are not modelled.
- `pyperclip.copy(None)` raises PyperclipException, so in the running program a None result ends the action
  before the write and the paste. `App.ProcessClipboardText`, `App.PrintHighlightedText`,
  `App.PrintTextFromClipboard` and `HighlightedCounts` describe the calls as written.
- The notifications' titles and messages (main.py:127-128, 137-138) and the key names pyautogui receives are not
  modelled as text. The two `Notice` values and the two `Chord` values stand for them.
- print_highlighted_text: what the foreground application puts on the clipboard in answer to ctrl+c is the
  parameter `copied`. The application's behaviour is outside the program.
- Dispatch of hotkeys to their callbacks, and any concurrency inside the `keyboard` library, are left out. A
  registration is recorded as a trace entry.
- The tray icon, the Exit menu item, image loading and logging (main.py:57-89) have no decision logic.
- `get_openai_api_key` (main.py:40-54) is never called.
- The module-level order is: key check (main.py:36), then settings, clipboard reset and hotkeys. No member puts
  these together. A caller runs `KeyStore.PerformApiKeyCheck`, passes `outcome.key` to the `App` constructor once
  the outcome is `Answered` (while it is `Waiting`, the real program is still blocked in `window.read()`), then
  calls `App.Start`.
- The settings and hotkey sections arrive as sequences of pairs, after configparser has read `settings.ini` and
  lower-cased the option names. Parsing the file, the DEFAULT section's extra items and a missing section are
  not modelled.
- PyInt.ParseInt: only ASCII digits. Python's int() also accepts other Unicode decimal digits, and it limits the
  number of digits by default. Neither is modelled. It skips str.strip()'s whitespace, which includes U+001C-U+001F
  that int() rejects; configparser has already stripped every value with str.strip(), so no value reaches int()
  with those at its edges.
- `requests` rejects a negative or zero timeout. That check is library behaviour and is not modelled.
- PySimpleGUI's theme, layout and rendering are left out. window.read() delivers only the two events modelled:
  closing, or OK with the input text. Any other event, which the loop would skip, is not represented.
- A prompt whose events run out before the loop ends is `Waiting`. The real `window.read()` would block.
- The real file system is a slot for `Secrets/api_key.txt`. Encodings and I/O errors are not modelled.
