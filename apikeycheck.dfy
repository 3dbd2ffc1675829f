/**
 * apikeycheck.py: obtaining the OpenAI API key, first from the key file Secrets/api_key.txt and
 * otherwise from a PySimpleGUI prompt that saves the key it accepts.
 *
 * The key file is a slot that is absent (None) or holds the file's text. The prompt window is
 * the finite sequence of events window.read() delivers; what the user sees (the window and its
 * popups) and the file writes are recorded as effects.
 */
module ApiKeyCheck {
  import opened Wrappers
  import opened PyStr

  const KeyPrefix := "sk-"
  const KeyRequiredMessage := "Sorry, an API key is required."
  const InvalidKeyMessage := "Invalid API key. Please enter a valid API key in the format sk-<character string>."

  // ---------------------------------------------------------------------------------------
  // The key format ^sk-[a-zA-Z0-9\-]+$ (apikeycheck.py:25 and 57)

  /** A character of the class [a-zA-Z0-9\-]. */
  predicate IsKeyChar(c: char)
  {
    ('a' <= c <= 'z') || ('A' <= c <= 'Z') || ('0' <= c <= '9') || c == '-'
  }

  /** How far the greedy [a-zA-Z0-9\-]+ reaches from position i: the longest run of key characters. */
  function KeyCharRun(s: string, i: nat): (n: nat)
    requires i <= |s|
    ensures i + n <= |s|
    ensures forall k :: i <= k < i + n ==> IsKeyChar(s[k])
    ensures i + n < |s| ==> !IsKeyChar(s[i + n])
    decreases |s| - i
  {
    if i < |s| && IsKeyChar(s[i]) then 1 + KeyCharRun(s, i + 1) else 0
  }

  /**
   * re.match("^sk-[a-zA-Z0-9\-]+$", s) succeeds: the literal "sk-", then the greedy run of at least
   * one key character, then `$`, which in Python matches at the end or just before one final '\n'.
   * Backtracking into the run cannot help, because every shorter run is followed by a key character.
   */
  predicate MatchesKeyPattern(s: string)
  {
    && |s| >= 3 && s[..3] == KeyPrefix
    && var n := KeyCharRun(s, 3);
       n >= 1 && (3 + n == |s| || (3 + n == |s| - 1 && s[|s| - 1] == '\n'))
  }

  ghost predicate IsKeyBody(b: string)
  {
    |b| >= 1 && forall k :: 0 <= k < |b| ==> IsKeyChar(b[k])
  }

  /** The language of the pattern: "sk-", one or more key characters, and at most one '\n' at the end. */
  ghost predicate InKeyLanguage(s: string)
  {
    exists b :: IsKeyBody(b) && (s == KeyPrefix + b || s == KeyPrefix + b + "\n")
  }

  /** The greedy run is the longest one, so any maximal run of key characters is it. */
  lemma KeyCharRunIsMaximal(s: string, i: nat, n: nat)
    requires i + n <= |s|
    requires forall k :: i <= k < i + n ==> IsKeyChar(s[k])
    requires i + n == |s| || !IsKeyChar(s[i + n])
    ensures KeyCharRun(s, i) == n
  {
  }

  /** The matcher accepts exactly the strings of the pattern's language. */
  lemma MatchesKeyPatternExactly(s: string)
    ensures MatchesKeyPattern(s) <==> InKeyLanguage(s)
  {
    if MatchesKeyPattern(s) {
      MatchIsInLanguage(s);
    }
    if InKeyLanguage(s) {
      var b :| IsKeyBody(b) && (s == KeyPrefix + b || s == KeyPrefix + b + "\n");
      LanguageIsMatched(s, b);
    }
  }

  lemma MatchIsInLanguage(s: string)
    requires MatchesKeyPattern(s)
    ensures InKeyLanguage(s)
  {
    var n := KeyCharRun(s, 3);
    var b := s[3..3 + n];
    assert forall k :: 0 <= k < n ==> b[k] == s[3 + k];
    assert IsKeyBody(b);
    if 3 + n == |s| {
      assert s == s[..3] + b;
    } else {
      assert s == s[..3] + b + [s[|s| - 1]];
    }
  }

  lemma LanguageIsMatched(s: string, b: string)
    requires IsKeyBody(b) && (s == KeyPrefix + b || s == KeyPrefix + b + "\n")
    ensures MatchesKeyPattern(s)
  {
    assert s[..3] == KeyPrefix;
    assert forall k :: 3 <= k < 3 + |b| ==> s[k] == b[k - 3];
    assert 3 + |b| < |s| ==> s[3 + |b|] == '\n';
    KeyCharRunIsMaximal(s, 3, |b|);
  }

  /** A matching string starts with a non-space, and ends with one, or with one '\n' just after one. */
  lemma KeyHasNoEdgeSpace(s: string)
    requires MatchesKeyPattern(s)
    ensures |s| >= 4 && !IsSpace(s[0])
    ensures s[|s| - 1] == '\n' ==> !IsSpace(s[|s| - 2])
    ensures s[|s| - 1] != '\n' ==> !IsSpace(s[|s| - 1])
  {
    assert s[0] == KeyPrefix[0];
  }

  /** A matching string holds no whitespace except, possibly, the final '\n'. */
  lemma KeyHasNoInnerSpace(s: string)
    requires MatchesKeyPattern(s)
    ensures forall k :: 0 <= k < |s| - 1 ==> !IsSpace(s[k])
    ensures s[|s| - 1] != '\n' ==> !IsSpace(s[|s| - 1])
  {
    assert forall k :: 0 <= k < 3 ==> s[k] == KeyPrefix[k];
  }

  // ---------------------------------------------------------------------------------------
  // read_api_key (apikeycheck.py:15-29)

  /**
   * The key found in the key file: its stripped text when that matches the pattern, None when the
   * file is absent or its text does not match. A key read from the file never ends in '\n'.
   */
  function ReadApiKey(keyFile: Option<string>): (key: Option<string>)
    ensures keyFile.None? ==> key.None?
    ensures key.Some? <==> keyFile.Some? && MatchesKeyPattern(Strip(keyFile.value))
    ensures key.Some? ==> key.value == Strip(keyFile.value)
  {
    match keyFile
    case None => None
    case Some(text) =>
      var key := Strip(text);
      if MatchesKeyPattern(key) then Some(key) else None
  }

  /** A key read from the file is "sk-" and a run of key characters: stripping removed any final '\n'. */
  lemma ReadKeyHasNoNewline(keyFile: Option<string>)
    ensures var key := ReadApiKey(keyFile);
      key.Some? ==> key.value == KeyPrefix + key.value[3..] && IsKeyBody(key.value[3..])
  {
    var key := ReadApiKey(keyFile);
    if key.Some? {
      EdgelessKeyIsPrefixAndBody(key.value);
    }
  }

  /** A matching string that does not end in whitespace is "sk-" followed by a key body. */
  lemma EdgelessKeyIsPrefixAndBody(k: string)
    requires MatchesKeyPattern(k) && NoEdgeSpace(k)
    ensures k == KeyPrefix + k[3..] && IsKeyBody(k[3..])
  {
    assert k[|k| - 1] != '\n' by { assert IsSpace('\n'); }
    assert KeyCharRun(k, 3) == |k| - 3;
    assert forall i :: 0 <= i < |k| - 3 ==> k[3..][i] == k[3 + i];
    assert k == k[..3] + k[3..];
  }

  /** Whatever the prompt saves is found again by read_api_key, without the one '\n' the pattern lets through. */
  lemma SavedKeyIsReadBack(k: string)
    requires MatchesKeyPattern(k)
    ensures ReadApiKey(Some(k)) == Some(if k[|k| - 1] == '\n' then k[..|k| - 1] else k)
  {
    KeyHasNoEdgeSpace(k);
    if k[|k| - 1] == '\n' {
      var t := k[..|k| - 1];
      assert TrimsAt(k, 0, t);
      StripIsTheTrimming(k, t);
      MatchesKeyPatternExactly(k);
      var b :| IsKeyBody(b) && (k == KeyPrefix + b || k == KeyPrefix + b + "\n");
      assert t == KeyPrefix + b;
      MatchesKeyPatternExactly(t);
    } else {
      StripKeepsEdgeless(k);
    }
  }

  // ---------------------------------------------------------------------------------------
  // prompt_for_api_key (apikeycheck.py:32-68)

  /** What window.read() reports: the window was closed, or OK was pressed with the text in the input box. */
  datatype WindowEvent = Closed | OkPressed(text: string)

  /** The visible and persistent effects of the key check. */
  datatype KeyEffect =
    | WindowOpened
    | Popup(message: string)
    | KeyFileWritten(contents: string)
    | WindowClosed

  /**
   * How a prompt ends: with a key, or with None after the window was closed; or it is still Waiting
   * in window.read() because the events seen so far did neither.
   */
  datatype PromptOutcome = Answered(key: Option<string>) | Waiting

  datatype PromptRun = PromptRun(outcome: PromptOutcome, effects: seq<KeyEffect>)

  /** An event after which the loop breaks. */
  predicate EndsPrompt(e: WindowEvent)
  {
    e.Closed? || MatchesKeyPattern(e.text)
  }

  /** The contents of every file write among the effects, in order. */
  function FileWrites(effects: seq<KeyEffect>): seq<string>
  {
    if effects == [] then []
    else (if effects[0].KeyFileWritten? then [effects[0].contents] else []) + FileWrites(effects[1..])
  }

  lemma {:induction false} FileWritesAppend(a: seq<KeyEffect>, b: seq<KeyEffect>)
    ensures FileWrites(a + b) == FileWrites(a) + FileWrites(b)
  {
    if a == [] {
      assert a + b == b;
    } else {
      assert (a + b)[1..] == a[1..] + b;
      FileWritesAppend(a[1..], b);
    }
  }

  function Popups(n: nat, message: string): (p: seq<KeyEffect>)
    ensures |p| == n && forall k :: 0 <= k < n ==> p[k] == Popup(message)
  {
    if n == 0 then [] else [Popup(message)] + Popups(n - 1, message)
  }

  /**
   * The while loop: an invalid OK shows the invalid-key popup and goes on; a valid OK writes the
   * key file once and ends with that key; closing shows the key-required popup and ends with None.
   */
  function PromptLoop(events: seq<WindowEvent>): (r: PromptRun)
    ensures r.outcome.Answered? && r.outcome.key.Some? ==> MatchesKeyPattern(r.outcome.key.value)
  {
    if events == [] then PromptRun(Waiting, [])
    else
      match events[0]
      case Closed => PromptRun(Answered(None), [Popup(KeyRequiredMessage)])
      case OkPressed(text) =>
        if MatchesKeyPattern(text) then
          PromptRun(Answered(Some(text)), [KeyFileWritten(text)])
        else
          var rest := PromptLoop(events[1..]);
          PromptRun(rest.outcome, [Popup(InvalidKeyMessage)] + rest.effects)
  }

  /** The whole prompt: the window opens, the loop runs, and the window is closed once the loop ends. */
  function PromptSession(events: seq<WindowEvent>): (r: PromptRun)
    ensures r.outcome == PromptLoop(events).outcome
    ensures |r.effects| > 0 && r.effects[0] == WindowOpened
  {
    var loop := PromptLoop(events);
    var closing := if loop.outcome.Answered? then [WindowClosed] else [];
    PromptRun(loop.outcome, [WindowOpened] + loop.effects + closing)
  }

  /** The loop writes the key file at most once: with the key it returns, and only then. */
  lemma {:induction false} PromptLoopWritesOnce(events: seq<WindowEvent>)
    ensures var r := PromptLoop(events);
      FileWrites(r.effects) == if r.outcome.Answered? && r.outcome.key.Some? then [r.outcome.key.value] else []
  {
    if events != [] && events[0].OkPressed? && !MatchesKeyPattern(events[0].text) {
      var rest := PromptLoop(events[1..]);
      PromptLoopWritesOnce(events[1..]);
      FileWritesAppend([Popup(InvalidKeyMessage)], rest.effects);
    }
  }

  /** Opening and closing the window writes nothing: the session writes what the loop writes. */
  lemma PromptSessionWritesOnce(events: seq<WindowEvent>)
    ensures var r := PromptSession(events);
      FileWrites(r.effects) == if r.outcome.Answered? && r.outcome.key.Some? then [r.outcome.key.value] else []
  {
    var loop := PromptLoop(events);
    var closing := if loop.outcome.Answered? then [WindowClosed] else [];
    PromptLoopWritesOnce(events);
    FileWritesAppend([WindowOpened], loop.effects);
    FileWritesAppend([WindowOpened] + loop.effects, closing);
  }

  /** Position i holds the first event that ends the loop. */
  ghost predicate FirstEndAt(events: seq<WindowEvent>, i: int)
  {
    0 <= i < |events| && EndsPrompt(events[i]) && forall j :: 0 <= j < i ==> !EndsPrompt(events[j])
  }

  /** Events before the first ending one only add invalid-key popups. */
  lemma {:induction false} PromptLoopSkips(events: seq<WindowEvent>, i: nat)
    requires i <= |events| && forall j :: 0 <= j < i ==> !EndsPrompt(events[j])
    ensures PromptLoop(events).outcome == PromptLoop(events[i..]).outcome
    ensures PromptLoop(events).effects == Popups(i, InvalidKeyMessage) + PromptLoop(events[i..]).effects
  {
    if i > 0 {
      assert events[1..][i - 1..] == events[i..];
      PromptLoopSkips(events[1..], i - 1);
    }
  }

  /** The loop ends at the first Closed or valid OK, with None or that OK's text. */
  lemma PromptLoopEndsAtFirstEnd(events: seq<WindowEvent>, i: int)
    requires FirstEndAt(events, i)
    ensures PromptLoop(events).outcome == Answered(if events[i].Closed? then None else Some(events[i].text))
    ensures PromptLoop(events).effects ==
      Popups(i, InvalidKeyMessage) + [if events[i].Closed? then Popup(KeyRequiredMessage) else KeyFileWritten(events[i].text)]
  {
    PromptLoopSkips(events, i);
  }

  /** With no Closed and no valid OK the loop is still waiting, having shown one popup per OK. */
  lemma {:induction false} PromptLoopWaits(events: seq<WindowEvent>)
    requires forall j :: 0 <= j < |events| ==> !EndsPrompt(events[j])
    ensures PromptLoop(events) == PromptRun(Waiting, Popups(|events|, InvalidKeyMessage))
  {
    if events != [] {
      assert !EndsPrompt(events[0]);
      assert forall j :: 0 <= j < |events| - 1 ==> events[1..][j] == events[j + 1];
      PromptLoopWaits(events[1..]);
    }
  }

  lemma {:induction false} FirstEndExists(events: seq<WindowEvent>, i: int)
    requires 0 <= i < |events| && EndsPrompt(events[i])
    ensures exists f :: FirstEndAt(events, f)
  {
    if forall j :: 0 <= j < i ==> !EndsPrompt(events[j]) {
      assert FirstEndAt(events, i);
    } else {
      var j :| 0 <= j < i && EndsPrompt(events[j]);
      FirstEndExists(events, j);
    }
  }

  /** prompt_for_api_key returns None exactly when the window is closed before any valid key is entered. */
  lemma PromptReturnsNoneIff(events: seq<WindowEvent>)
    ensures PromptSession(events).outcome == Answered(None) <==> exists i :: FirstEndAt(events, i) && events[i].Closed?
  {
    if exists i :: FirstEndAt(events, i) && events[i].Closed? {
      var i :| FirstEndAt(events, i) && events[i].Closed?;
      PromptLoopEndsAtFirstEnd(events, i);
    }
    if PromptSession(events).outcome == Answered(None) {
      if forall j :: 0 <= j < |events| ==> !EndsPrompt(events[j]) {
        PromptLoopWaits(events);
      } else {
        var j :| 0 <= j < |events| && EndsPrompt(events[j]);
        FirstEndExists(events, j);
        var i :| FirstEndAt(events, i);
        PromptLoopEndsAtFirstEnd(events, i);
      }
    }
  }

  /** Otherwise the key it returns is the text of the first valid OK, before which the window stayed open. */
  lemma PromptReturnsFirstValidKey(events: seq<WindowEvent>, k: string)
    ensures PromptSession(events).outcome == Answered(Some(k)) <==>
      exists i :: FirstEndAt(events, i) && events[i] == OkPressed(k)
  {
    if exists i :: FirstEndAt(events, i) && events[i] == OkPressed(k) {
      var i :| FirstEndAt(events, i) && events[i] == OkPressed(k);
      PromptLoopEndsAtFirstEnd(events, i);
    }
    if PromptSession(events).outcome == Answered(Some(k)) {
      if forall j :: 0 <= j < |events| ==> !EndsPrompt(events[j]) {
        PromptLoopWaits(events);
      } else {
        var j :| 0 <= j < |events| && EndsPrompt(events[j]);
        FirstEndExists(events, j);
        var i :| FirstEndAt(events, i);
        PromptLoopEndsAtFirstEnd(events, i);
      }
    }
  }

  // ---------------------------------------------------------------------------------------
  // perform_api_key_check (apikeycheck.py:71-78)

  /** The file key when there is one; otherwise whatever the prompt ends with. */
  function KeyCheckOutcome(keyFile: Option<string>, events: seq<WindowEvent>): (r: PromptOutcome)
    ensures r.Answered? && r.key.Some? ==> MatchesKeyPattern(r.key.value)
    ensures ReadApiKey(keyFile).Some? ==> r == Answered(ReadApiKey(keyFile))
  {
    var fileKey := ReadApiKey(keyFile);
    if fileKey.None? then PromptSession(events).outcome else Answered(fileKey)
  }

  /** The key file and what the user has been shown so far. */
  class KeyStore {
    var keyFile: Option<string>
    var effects: seq<KeyEffect>

    constructor (keyFile: Option<string>)
      ensures this.keyFile == keyFile && effects == []
    {
      this.keyFile := keyFile;
      effects := [];
    }

    /** read_api_key on the current key file. */
    method ReadKey() returns (key: Option<string>)
      ensures key == ReadApiKey(keyFile)
      ensures key.Some? ==> MatchesKeyPattern(key.value)
    {
      key := None;
      if keyFile.Some? {
        var text := Strip(keyFile.value);
        key := Some(text);
        if !MatchesKeyPattern(text) {
          key := None;
        }
      }
    }

    /**
     * prompt_for_api_key: shows the window and handles events until one ends the loop; the window
     * is closed once the loop has ended.
     */
    method PromptForApiKey(events: seq<WindowEvent>) returns (outcome: PromptOutcome)
      modifies this
      ensures outcome == PromptSession(events).outcome
      ensures effects == old(effects) + PromptSession(events).effects
      ensures keyFile == if outcome.Answered? && outcome.key.Some? then outcome.key else old(keyFile)
    {
      effects := effects + [WindowOpened];
      outcome := ReadEvents(events);
      if outcome.Answered? {
        effects := effects + [WindowClosed];
      }
    }

    /**
     * The while loop of prompt_for_api_key, one window.read() per turn: closing shows the
     * key-required popup and ends with None; a valid OK writes the key file and ends with the key;
     * an invalid OK shows the invalid-key popup and reads again.
     */
    method ReadEvents(events: seq<WindowEvent>) returns (outcome: PromptOutcome)
      modifies this
      ensures outcome == PromptLoop(events).outcome
      ensures effects == old(effects) + PromptLoop(events).effects
      ensures keyFile == if outcome.Answered? && outcome.key.Some? then outcome.key else old(keyFile)
    {
      outcome := Waiting;
      var i := 0;
      while i < |events|
        invariant 0 <= i <= |events|
        invariant forall j :: 0 <= j < i ==> !EndsPrompt(events[j])
        invariant effects == old(effects) + Popups(i, InvalidKeyMessage)
        invariant keyFile == old(keyFile) && outcome == Waiting
      {
        match events[i]
        case Closed =>
          effects := effects + [Popup(KeyRequiredMessage)];
          outcome := Answered(None);
          PromptLoopEndsAtFirstEnd(events, i);
          return;
        case OkPressed(text) =>
          var apiKey := Some(text);
          if !MatchesKeyPattern(text) {
            apiKey := None;
          }
          if apiKey.Some? {
            keyFile := apiKey;
            effects := effects + [KeyFileWritten(apiKey.value)];
            outcome := Answered(apiKey);
            PromptLoopEndsAtFirstEnd(events, i);
            return;
          } else {
            effects := effects + [Popup(InvalidKeyMessage)];
            assert Popups(i, InvalidKeyMessage) + [Popup(InvalidKeyMessage)] == Popups(i + 1, InvalidKeyMessage);
          }
        i := i + 1;
      }
      PromptLoopWaits(events);
    }

    /** perform_api_key_check: the prompt runs only when the key file yields no key. */
    method PerformApiKeyCheck(events: seq<WindowEvent>) returns (outcome: PromptOutcome)
      modifies this
      ensures outcome == KeyCheckOutcome(old(keyFile), events)
      ensures ReadApiKey(old(keyFile)).Some? ==> keyFile == old(keyFile) && effects == old(effects)
      ensures ReadApiKey(old(keyFile)).None? ==> effects == old(effects) + PromptSession(events).effects
      ensures keyFile == if outcome.Answered? && outcome.key.Some? && ReadApiKey(old(keyFile)).None? then outcome.key else old(keyFile)
    {
      var apiKey := ReadKey();
      if apiKey.None? {
        outcome := PromptForApiKey(events);
      } else {
        outcome := Answered(apiKey);
      }
    }
  }
}
