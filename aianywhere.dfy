/**
 * main.py: the hotkey pipeline of AIAnywhere. A hotkey action captures text (from the clipboard,
 * or from the selection through a simulated ctrl+c), process_text_input sends it to the chat
 * completion service, and the result is written back to the clipboard and possibly pasted.
 *
 * The completion service is an injected oracle from requests to replies. Notifications, service
 * calls, key chords, sleeps, clipboard accesses and hotkey registrations are recorded in a trace.
 * The clipboard is one slot holding a Python str or None, because the actions write whatever
 * process_text_input returned, None included.
 */
module AiAnywhere {
  import opened Wrappers
  import opened PyStr
  import PyInt

  const DefaultTimeout := 120
  const ModelName := "gpt-3.5-turbo"
  const TimeoutSetting := "openai_timeout"
  /** time.sleep(0.5) after the simulated copy, in milliseconds. */
  const SettleMillis := 500

  /** One chat completion request: the model, the prompt (a str or None), the bearer key and the timeout in force. */
  datatype Request = Request(model: string, prompt: Option<string>, apiKey: Option<string>, timeout: int)

  /**
   * What the service exchange ends with: a payload whose first choice has the given content (JSON
   * null is None); a requests.RequestException (connection failure, timeout, HTTP error status),
   * which get_chatgpt_response catches; or any other exception, such as the KeyError of a payload
   * without choices, which escapes it.
   */
  datatype Reply = Completed(content: Option<string>) | RequestException | OtherException

  type Oracle = Request -> Reply

  /** A Python call either returns a value or raises. */
  datatype Returned<T> = Returns(value: T) | Raises

  /** The three hotkey callbacks. */
  datatype Action = PrintHighlightedText | PrintTextFromClipboard | ProcessClipboardText

  /** The two notifications: notify_processing (main.py:122-129) and notify_processing_complete (main.py:132-139). */
  datatype Notice = Processing | Complete

  /** The chords pyautogui.hotkey presses: ctrl+c and ctrl+v. */
  datatype Chord = CtrlC | CtrlV

  datatype Effect =
    | Notification(notice: Notice)
    | ServiceCall(request: Request)
    | KeyChord(chord: Chord)
    | Sleep(millis: nat)
    | ClipboardRead(value: Option<string>)
    | ClipboardWrite(value: Option<string>)
    | HotkeyAdded(hotkey: string, action: Action)

  const ProcessingNotice := Notification(Processing)
  const CompleteNotice := Notification(Complete)
  const CopyChord := KeyChord(CtrlC)
  const PasteChord := KeyChord(CtrlV)

  /** The effects of a call and what it returned or that it raised. */
  datatype Run = Run(effects: seq<Effect>, result: Returned<Option<string>>)

  // ---------------------------------------------------------------------------------------
  // get_chatgpt_response and process_text_input (main.py:92-157)

  /**
   * get_chatgpt_response: exactly one service call with the prompt, the key and the timeout; the
   * first choice's content is returned as it is, a RequestException becomes None, and any other
   * exception propagates.
   */
  function GetChatGptResponse(prompt: Option<string>, apiKey: Option<string>, timeout: int, oracle: Oracle): (run: Run)
    ensures run.effects == [ServiceCall(Request(ModelName, prompt, apiKey, timeout))]
    ensures var reply := oracle(Request(ModelName, prompt, apiKey, timeout));
      && (run.result.Raises? <==> reply.OtherException?)
      && (run.result.Returns? && run.result.value.Some? <==> reply.Completed? && reply.content.Some?)
      && (run.result.Returns? && run.result.value.Some? ==> run.result.value == reply.content)
  {
    var request := Request(ModelName, prompt, apiKey, timeout);
    match oracle(request)
    case Completed(content) => Run([ServiceCall(request)], Returns(content))
    case RequestException => Run([ServiceCall(request)], Returns(None))
    case OtherException => Run([ServiceCall(request)], Raises)
  }

  /** The inputs process_text_input ignores: exactly '' and ' ', not every whitespace-only string. */
  predicate IsIgnoredInput(text: Option<string>)
  {
    text == Some("") || text == Some(" ")
  }

  /** A run that returned a string. */
  predicate Delivers(run: Run)
  {
    run.result.Returns? && run.result.value.Some?
  }

  /**
   * process_text_input: an ignored input returns None with no effect at all; any other input is
   * announced and sent once, and only a reply with content is announced as complete and returned,
   * stripped.
   */
  function ProcessTextInput(text: Option<string>, apiKey: Option<string>, timeout: int, oracle: Oracle): (run: Run)
    ensures run.effects == [] <==> IsIgnoredInput(text)
    ensures IsIgnoredInput(text) ==> run.result == Returns(None)
    ensures Delivers(run) ==> NoEdgeSpace(run.result.value.value)
  {
    if text != Some("") && text != Some(" ") then
      var call := GetChatGptResponse(text, apiKey, timeout, oracle);
      var announced := [ProcessingNotice] + call.effects;
      if call.result.Returns? && call.result.value.Some? then
        var cleaned := Strip(call.result.value.value);
        Run(announced + [CompleteNotice], Returns(Some(cleaned)))
      else
        Run(announced, call.result)
    else
      Run([], Returns(None))
  }

  /**
   * A sent prompt is announced and sent once; it is announced as complete and returned, stripped,
   * exactly when the reply has content; a request failure gives None; any other exception propagates.
   */
  lemma ProcessTextInputReply(text: Option<string>, apiKey: Option<string>, timeout: int, oracle: Oracle)
    requires !IsIgnoredInput(text)
    ensures var request := Request(ModelName, text, apiKey, timeout);
      var reply := oracle(request);
      var run := ProcessTextInput(text, apiKey, timeout, oracle);
      && run.effects == [ProcessingNotice, ServiceCall(request)] + (if Delivers(run) then [CompleteNotice] else [])
      && (Delivers(run) <==> reply.Completed? && reply.content.Some?)
      && (Delivers(run) ==> run.result == Returns(Some(Strip(reply.content.value))))
      && (run.result.Raises? <==> reply.OtherException?)
  {
  }

  /** A returned completion is already stripped: processing it again would give the same text back. */
  lemma ProcessedTextIsStripped(text: Option<string>, apiKey: Option<string>, timeout: int, oracle: Oracle)
    ensures var run := ProcessTextInput(text, apiKey, timeout, oracle);
      Delivers(run) ==> Strip(run.result.value.value) == run.result.value.value
  {
    var run := ProcessTextInput(text, apiKey, timeout, oracle);
    if Delivers(run) {
      StripKeepsEdgeless(run.result.value.value);
    }
  }

  /** Only '' and ' ' are ignored: a prompt of two spaces, or of one newline, is still sent. */
  lemma WhitespacePromptsAreSent(apiKey: Option<string>, timeout: int, oracle: Oracle)
    ensures ServiceCall(Request(ModelName, Some("  "), apiKey, timeout)) in ProcessTextInput(Some("  "), apiKey, timeout, oracle).effects
    ensures ServiceCall(Request(ModelName, Some("\n"), apiKey, timeout)) in ProcessTextInput(Some("\n"), apiKey, timeout, oracle).effects
  {
    assert !IsIgnoredInput(Some("  ")) by { assert |"  "| == 2; }
    assert !IsIgnoredInput(Some("\n")) by { assert "\n"[0] == '\n'; }
  }

  /** No processing run presses a key, sleeps or touches the clipboard, and each makes at most one service call. */
  lemma ProcessTextInputEffects(text: Option<string>, apiKey: Option<string>, timeout: int, oracle: Oracle)
    ensures var run := ProcessTextInput(text, apiKey, timeout, oracle);
      && CopyChord !in run.effects && PasteChord !in run.effects && (forall m :: Sleep(m) !in run.effects)
      && (forall v :: ClipboardRead(v) !in run.effects && ClipboardWrite(v) !in run.effects)
      && multiset(run.effects)[ServiceCall(Request(ModelName, text, apiKey, timeout))] == (if IsIgnoredInput(text) then 0 else 1)
      && (CompleteNotice in run.effects <==> Delivers(run))
  {
    var run := ProcessTextInput(text, apiKey, timeout, oracle);
    if !IsIgnoredInput(text) {
      ProcessTextInputReply(text, apiKey, timeout, oracle);
      AnnouncedCallEffects(run.effects, Request(ModelName, text, apiKey, timeout), Delivers(run));
    }
  }

  /** The effects of a sent prompt are two or three notices and calls, the call once. */
  lemma AnnouncedCallEffects(effects: seq<Effect>, request: Request, delivered: bool)
    requires effects == [ProcessingNotice, ServiceCall(request)] + (if delivered then [CompleteNotice] else [])
    ensures CopyChord !in effects && PasteChord !in effects
    ensures forall m :: Sleep(m) !in effects
    ensures forall v :: ClipboardRead(v) !in effects && ClipboardWrite(v) !in effects
    ensures multiset(effects)[ServiceCall(request)] == 1
    ensures CompleteNotice in effects <==> delivered
  {
    var tail := if delivered then [CompleteNotice] else [];
    assert multiset(effects) == multiset{ProcessingNotice, ServiceCall(request)} + multiset(tail);
  }

  // ---------------------------------------------------------------------------------------
  // Startup: the settings loop and the hotkey loop (main.py:205-226)

  datatype SettingsRun = SettingsRun(timeout: int, raised: bool)

  /**
   * The settings loop from a given timeout: each openai_timeout entry assigns int(value), other
   * names are skipped, and a value int() rejects raises ValueError, which ends the loop.
   */
  function ApplySettings(settings: seq<(string, string)>, timeout: int): SettingsRun
  {
    if settings == [] then SettingsRun(timeout, false)
    else if settings[0].0 == TimeoutSetting then
      match PyInt.ParseInt(settings[0].1)
      case None => SettingsRun(timeout, true)
      case Some(n) => ApplySettings(settings[1..], n)
    else ApplySettings(settings[1..], timeout)
  }

  /** One turn of the settings loop, at position i. */
  lemma ApplySettingsStep(settings: seq<(string, string)>, i: int, timeout: int)
    requires 0 <= i < |settings|
    ensures settings[i].0 != TimeoutSetting ==>
      ApplySettings(settings[i..], timeout) == ApplySettings(settings[i + 1..], timeout)
    ensures settings[i].0 == TimeoutSetting && PyInt.ParseInt(settings[i].1).None? ==>
      ApplySettings(settings[i..], timeout) == SettingsRun(timeout, true)
    ensures settings[i].0 == TimeoutSetting && PyInt.ParseInt(settings[i].1).Some? ==>
      ApplySettings(settings[i..], timeout) == ApplySettings(settings[i + 1..], PyInt.ParseInt(settings[i].1).value)
  {
    assert settings[i..][0] == settings[i] && settings[i..][1..] == settings[i + 1..];
  }

  /** Running the loop over a + b is running it over a and then, unless that raised, over b. */
  lemma {:induction false} ApplySettingsAppend(a: seq<(string, string)>, b: seq<(string, string)>, timeout: int)
    ensures ApplySettings(a + b, timeout) ==
      var first := ApplySettings(a, timeout);
      if first.raised then first else ApplySettings(b, first.timeout)
  {
    if a == [] {
      assert a + b == b;
    } else {
      assert (a + b)[1..] == a[1..] + b;
      if a[0].0 == TimeoutSetting {
        match PyInt.ParseInt(a[0].1)
        case None =>
        case Some(n) => ApplySettingsAppend(a[1..], b, n);
      } else {
        ApplySettingsAppend(a[1..], b, timeout);
      }
    }
  }

  /** Settings other than openai_timeout change nothing. */
  lemma {:induction false} OtherSettingsIgnored(settings: seq<(string, string)>, timeout: int)
    requires forall k :: 0 <= k < |settings| ==> settings[k].0 != TimeoutSetting
    ensures ApplySettings(settings, timeout) == SettingsRun(timeout, false)
  {
    if settings != [] {
      OtherSettingsIgnored(settings[1..], timeout);
    }
  }

  /** When the loop completes, the last openai_timeout entry decides the timeout, as int() reads it. */
  lemma LastTimeoutWins(before: seq<(string, string)>, value: string, after: seq<(string, string)>, timeout: int)
    requires forall k :: 0 <= k < |after| ==> after[k].0 != TimeoutSetting
    requires !ApplySettings(before + [(TimeoutSetting, value)] + after, timeout).raised
    ensures PyInt.ParseInt(value).Some?
    ensures ApplySettings(before + [(TimeoutSetting, value)] + after, timeout).timeout == PyInt.ParseInt(value).value
  {
    ApplySettingsAppend(before + [(TimeoutSetting, value)], after, timeout);
    ApplySettingsAppend(before, [(TimeoutSetting, value)], timeout);
    var first := ApplySettings(before, timeout);
    if !first.raised {
      assert [(TimeoutSetting, value)][1..] == [];
      if PyInt.ParseInt(value).Some? {
        OtherSettingsIgnored(after, PyInt.ParseInt(value).value);
      }
    }
  }

  /** The loop raises exactly when some openai_timeout value is not an integer. */
  lemma {:induction false} SettingsRaiseIff(settings: seq<(string, string)>, timeout: int)
    ensures ApplySettings(settings, timeout).raised <==>
      exists k :: 0 <= k < |settings| && settings[k].0 == TimeoutSetting && PyInt.ParseInt(settings[k].1).None?
  {
    if settings != [] {
      var next := if settings[0].0 == TimeoutSetting && PyInt.ParseInt(settings[0].1).Some?
                  then PyInt.ParseInt(settings[0].1).value else timeout;
      SettingsRaiseIff(settings[1..], next);
      if exists k :: 0 <= k < |settings| - 1 && settings[1..][k].0 == TimeoutSetting && PyInt.ParseInt(settings[1..][k].1).None? {
        var k :| 0 <= k < |settings| - 1 && settings[1..][k].0 == TimeoutSetting && PyInt.ParseInt(settings[1..][k].1).None?;
        assert settings[k + 1] == settings[1..][k];
      }
      if exists k :: 0 <= k < |settings| && settings[k].0 == TimeoutSetting && PyInt.ParseInt(settings[k].1).None? {
        var k :| 0 <= k < |settings| && settings[k].0 == TimeoutSetting && PyInt.ParseInt(settings[k].1).None?;
        if k > 0 {
          assert settings[1..][k - 1] == settings[k];
        }
      }
    }
  }

  /** The callback each configured action name is bound to; other names are skipped. */
  function CallbackFor(action: string): (r: Option<Action>)
    ensures r.Some? <==> action in {"print_highlighted_text", "print_from_clipboard", "process_clipboard"}
  {
    if action == "print_highlighted_text" then Some(PrintHighlightedText)
    else if action == "print_from_clipboard" then Some(PrintTextFromClipboard)
    else if action == "process_clipboard" then Some(ProcessClipboardText)
    else None
  }

  /** The keyboard.add_hotkey calls the hotkey loop makes, in order. */
  function Registrations(hotkeys: seq<(string, string)>): (r: seq<Effect>)
    ensures |r| <= |hotkeys|
    ensures forall e | e in r :: e.HotkeyAdded?
  {
    if hotkeys == [] then []
    else
      var (action, hotkey) := hotkeys[0];
      (match CallbackFor(action)
       case Some(callback) => [HotkeyAdded(hotkey, callback)]
       case None => [])
      + Registrations(hotkeys[1..])
  }

  /** One turn of the hotkey loop, at position i. */
  lemma RegistrationsStep(hotkeys: seq<(string, string)>, i: int)
    requires 0 <= i < |hotkeys|
    ensures Registrations(hotkeys[i..]) ==
      (if CallbackFor(hotkeys[i].0).Some? then [HotkeyAdded(hotkeys[i].1, CallbackFor(hotkeys[i].0).value)] else [])
      + Registrations(hotkeys[i + 1..])
  {
    assert hotkeys[i..][0] == hotkeys[i] && hotkeys[i..][1..] == hotkeys[i + 1..];
  }

  /** The loop treats pairs one by one: the registrations of a + b are those of a, then those of b. */
  lemma {:induction false} RegistrationsAppend(a: seq<(string, string)>, b: seq<(string, string)>)
    ensures Registrations(a + b) == Registrations(a) + Registrations(b)
  {
    if a == [] {
      assert a + b == b;
    } else {
      assert (a + b)[1..] == a[1..] + b;
      RegistrationsAppend(a[1..], b);
    }
  }

  /** One pair registers one binding of its hotkey to the matching callback, or nothing for an unknown name. */
  lemma RegistrationOfPair(action: string, hotkey: string)
    ensures Registrations([(action, hotkey)]) ==
      if CallbackFor(action).Some? then [HotkeyAdded(hotkey, CallbackFor(action).value)] else []
  {
    assert [(action, hotkey)][1..] == [];
  }

  // ---------------------------------------------------------------------------------------
  // The running program: its globals, the clipboard and the trace

  class App {
    /** OPEN_AI_KEY: whatever the key check returned; main.py:36 does not test it for None. */
    const apiKey: Option<string>
    /** The global openai_timeout that get_chatgpt_response reads at call time. */
    var timeout: int
    /** The OS clipboard. */
    var clipboard: Option<string>
    var trace: seq<Effect>

    constructor (apiKey: Option<string>, clipboard: Option<string>)
      ensures this.apiKey == apiKey && this.clipboard == clipboard
      ensures timeout == DefaultTimeout && trace == []
    {
      this.apiKey := apiKey;
      this.clipboard := clipboard;
      timeout := DefaultTimeout;
      trace := [];
    }

    /** The settings loop (main.py:205-210). It returns false when int() raised. */
    method LoadSettings(settings: seq<(string, string)>) returns (ok: bool)
      modifies this`timeout
      ensures timeout == ApplySettings(settings, old(timeout)).timeout
      ensures ok == !ApplySettings(settings, old(timeout)).raised
    {
      var i := 0;
      while i < |settings|
        invariant 0 <= i <= |settings|
        invariant ApplySettings(settings[i..], timeout) == ApplySettings(settings, old(timeout))
      {
        var (setting, value) := settings[i];
        ApplySettingsStep(settings, i, timeout);
        if setting == TimeoutSetting {
          var parsed := PyInt.ParseInt(value);
          if parsed.None? {
            return false;
          }
          timeout := parsed.value;
        } else {
          i := i + 1;
          continue;
        }
        i := i + 1;
      }
      ok := true;
    }

    /** The hotkey loop (main.py:215-226). */
    method RegisterHotkeys(hotkeys: seq<(string, string)>)
      modifies this`trace
      ensures trace == old(trace) + Registrations(hotkeys)
    {
      for i := 0 to |hotkeys|
        invariant trace + Registrations(hotkeys[i..]) == old(trace) + Registrations(hotkeys)
      {
        var (action, hotkey) := hotkeys[i];
        RegistrationsStep(hotkeys, i);
        var callback: Action;
        if action == "print_highlighted_text" {
          callback := Action.PrintHighlightedText;
        } else if action == "print_from_clipboard" {
          callback := Action.PrintTextFromClipboard;
        } else if action == "process_clipboard" {
          callback := Action.ProcessClipboardText;
        } else {
          continue;
        }
        trace := trace + [HotkeyAdded(hotkey, callback)];
      }
    }

    /**
     * The module-level startup after the key check (main.py:205-226): settings, then the clipboard
     * is emptied, then the hotkeys are registered. A ValueError from the settings stops it early.
     */
    method Start(settings: seq<(string, string)>, hotkeys: seq<(string, string)>) returns (ok: bool)
      modifies this`timeout, this`clipboard, this`trace
      ensures ok == !ApplySettings(settings, old(timeout)).raised
      ensures timeout == ApplySettings(settings, old(timeout)).timeout
      ensures ok ==> clipboard == Some("") && trace == old(trace) + [ClipboardWrite(Some(""))] + Registrations(hotkeys)
      ensures !ok ==> clipboard == old(clipboard) && trace == old(trace)
    {
      ok := LoadSettings(settings);
      if ok {
        clipboard := Some("");
        trace := trace + [ClipboardWrite(Some(""))];
        RegisterHotkeys(hotkeys);
      }
    }

    /** pyperclip.paste(). */
    method ReadClipboard() returns (text: Option<string>)
      modifies this`trace
      ensures text == clipboard
      ensures trace == old(trace) + [ClipboardRead(clipboard)]
    {
      text := clipboard;
      trace := trace + [ClipboardRead(text)];
    }

    /** pyperclip.copy(text). */
    method WriteClipboard(text: Option<string>)
      modifies this`clipboard, this`trace
      ensures clipboard == text
      ensures trace == old(trace) + [ClipboardWrite(text)]
    {
      clipboard := text;
      trace := trace + [ClipboardWrite(text)];
    }

    /** process_text_input on the current key and timeout, its effects added to the trace. */
    method ProcessText(text: Option<string>, oracle: Oracle) returns (run: Run)
      modifies this`trace
      ensures run == ProcessTextInput(text, apiKey, timeout, oracle)
      ensures trace == old(trace) + run.effects
    {
      run := ProcessTextInput(text, apiKey, timeout, oracle);
      trace := trace + run.effects;
    }

    /** copy_text_to_clipboard (main.py:160-166): write the text, then press ctrl+v. */
    method CopyTextToClipboard(text: Option<string>)
      modifies this`clipboard, this`trace
      ensures clipboard == text
      ensures trace == old(trace) + [ClipboardWrite(text), PasteChord]
    {
      WriteClipboard(text);
      trace := trace + [PasteChord];
    }

    /**
     * process_clipboard_text (main.py:169-175): read the clipboard, process it, and write back what
     * process_text_input returned, None included; no key is pressed. An exception ends it before the write.
     */
    method ProcessClipboardText(oracle: Oracle)
      modifies this`clipboard, this`trace
      ensures var run := ProcessTextInput(old(clipboard), apiKey, timeout, oracle);
        && trace == old(trace) + [ClipboardRead(old(clipboard))] + run.effects
                    + (if run.result.Returns? then [ClipboardWrite(run.result.value)] else [])
        && clipboard == if run.result.Returns? then run.result.value else old(clipboard)
    {
      var highlighted := ReadClipboard();
      var run := ProcessText(highlighted, oracle);
      if run.result.Raises? {
        return;
      }
      WriteClipboard(run.result.value);
    }

    /**
     * print_highlighted_text (main.py:178-186): press ctrl+c, wait 0.5 s, read the clipboard, process,
     * then write the result and press ctrl+v whether or not a completion came back. What the foreground
     * application puts on the clipboard in answer to ctrl+c is the parameter copied.
     */
    method PrintHighlightedText(oracle: Oracle, copied: Option<string>)
      modifies this`clipboard, this`trace
      ensures var run := ProcessTextInput(copied, apiKey, timeout, oracle);
        && trace == old(trace) + HighlightedTrace(copied, run)
        && clipboard == if run.result.Returns? then run.result.value else copied
    {
      clipboard := copied;
      trace := trace + [CopyChord, Sleep(SettleMillis)];
      var highlighted := ReadClipboard();
      var run := ProcessText(highlighted, oracle);
      if run.result.Raises? {
        return;
      }
      CopyTextToClipboard(run.result.value);
    }

    /**
     * print_text_from_clipboard (main.py:189-195): like print_highlighted_text without the copy and
     * the wait: read, process, write, paste.
     */
    method PrintTextFromClipboard(oracle: Oracle)
      modifies this`clipboard, this`trace
      ensures var run := ProcessTextInput(old(clipboard), apiKey, timeout, oracle);
        && trace == old(trace) + [ClipboardRead(old(clipboard))] + run.effects
                    + (if run.result.Returns? then [ClipboardWrite(run.result.value), PasteChord] else [])
        && clipboard == if run.result.Returns? then run.result.value else old(clipboard)
    {
      var highlighted := ReadClipboard();
      var run := ProcessText(highlighted, oracle);
      if run.result.Raises? {
        return;
      }
      CopyTextToClipboard(run.result.value);
    }
  }

  /**
   * What print_highlighted_text adds to the trace: ctrl+c, the wait, the clipboard read, the
   * processing run, then, unless processing raised, the write of its result and ctrl+v.
   */
  function HighlightedTrace(copied: Option<string>, run: Run): seq<Effect>
  {
    [CopyChord, Sleep(SettleMillis)] + [ClipboardRead(copied)] + run.effects
    + (if run.result.Returns? then [ClipboardWrite(run.result.value), PasteChord] else [])
  }

  /** print_highlighted_text presses ctrl+c once and waits once, and presses ctrl+v once exactly when processing returned. */
  lemma HighlightedCounts(copied: Option<string>, apiKey: Option<string>, timeout: int, oracle: Oracle)
    ensures var run := ProcessTextInput(copied, apiKey, timeout, oracle);
      var t := HighlightedTrace(copied, run);
      && multiset(t)[CopyChord] == 1
      && multiset(t)[Sleep(SettleMillis)] == 1
      && multiset(t)[PasteChord] == if run.result.Returns? then 1 else 0
  {
    var run := ProcessTextInput(copied, apiKey, timeout, oracle);
    ProcessTextInputEffects(copied, apiKey, timeout, oracle);
    ChordCounts(copied, run.effects, run.result);
  }

  /** Around a middle part with no chord and no wait, the copy chord and the wait occur once, the paste as the result says. */
  lemma ChordCounts(copied: Option<string>, middle: seq<Effect>, result: Returned<Option<string>>)
    requires CopyChord !in middle && PasteChord !in middle && Sleep(SettleMillis) !in middle
    ensures var t := HighlightedTrace(copied, Run(middle, result));
      && multiset(t)[CopyChord] == 1
      && multiset(t)[Sleep(SettleMillis)] == 1
      && multiset(t)[PasteChord] == if result.Returns? then 1 else 0
  {
    var head := [CopyChord, Sleep(SettleMillis)] + [ClipboardRead(copied)];
    var tail := if result.Returns? then [ClipboardWrite(result.value), PasteChord] else [];
    assert HighlightedTrace(copied, Run(middle, result)) == head + middle + tail;
    assert multiset(head + middle + tail) == multiset(head) + multiset(middle) + multiset(tail);
    assert multiset(middle)[CopyChord] == 0 && multiset(middle)[PasteChord] == 0 && multiset(middle)[Sleep(SettleMillis)] == 0;
  }
}
