/**
 * The content script (content.js): the capture switch and counter, the
 * gate that turns a submitted prompt into one `savePrompt` message, the
 * handler for the popup's requests, and the periodic scan that attaches
 * the capture listeners to the prompt field and the send buttons.
 *
 * The page is abstracted: the elements a scan finds are given to it, and
 * the two clock readings `capturePrompt` takes are given as strings.
 */
module Content {
  import opened Wrappers
  import opened Strings
  import opened Messages

  // ---------------------------------------------------------------------
  // File names

  /** `getTimestamp()`: the ISO time with every `:` and `.` turned into `-`. */
  function SanitizeTimestamp(iso: string): (ts: string)
    ensures |ts| == |iso|
    ensures forall i :: 0 <= i < |iso| ==>
      ts[i] == (if iso[i] == ':' || iso[i] == '.' then '-' else iso[i])
  {
    if iso == [] then []
    else [if iso[0] == ':' || iso[0] == '.' then '-' else iso[0]] + SanitizeTimestamp(iso[1..])
  }

  lemma {:induction false} SanitizedHasNoSeparators(iso: string)
    ensures ':' !in SanitizeTimestamp(iso) && '.' !in SanitizeTimestamp(iso)
  {
    var ts := SanitizeTimestamp(iso);
    forall i | 0 <= i < |ts| ensures ts[i] != ':' && ts[i] != '.' {
    }
  }

  const FilePrefix := "chatgpt-prompt-"
  const FileSuffix := ".txt"

  /** Where each piece of `a + b + c` sits. */
  lemma ThreePieces<T>(a: seq<T>, b: seq<T>, c: seq<T>)
    ensures (a + b + c)[..|a|] == a
    ensures (a + b + c)[|a|..|a| + |b|] == b
    ensures (a + b + c)[|a| + |b|..] == c
    ensures forall i :: 0 <= i < |a| ==> (a + b + c)[i] == a[i]
    ensures forall i :: |a| <= i < |a| + |b| ==> (a + b + c)[i] == b[i - |a|]
    ensures forall i :: |a| + |b| <= i < |a| + |b| + |c| ==> (a + b + c)[i] == c[i - |a| - |b|]
  {
  }

  /** The name a capture is saved under: `chatgpt-prompt-${timestamp}.txt`. */
  function PromptFilename(iso: string): (f: string)
    ensures |f| == |iso| + 19
    ensures f[..15] == FilePrefix && f[|f| - 4..] == FileSuffix
    ensures f[15..|f| - 4] == SanitizeTimestamp(iso)
  {
    var ts := SanitizeTimestamp(iso);
    ThreePieces(FilePrefix, ts, FileSuffix);
    FilePrefix + ts + FileSuffix
  }

  /** Whatever the clock gives, the file name has no `:`, and its only `.` is the extension's. */
  lemma {:induction false} FilenameSeparators(iso: string)
    ensures ':' !in PromptFilename(iso)
    ensures forall i :: 0 <= i < |PromptFilename(iso)| && PromptFilename(iso)[i] == '.' ==>
      i == |PromptFilename(iso)| - 4
  {
    var ts := SanitizeTimestamp(iso);
    SanitizedHasNoSeparators(iso);
    ThreePieces(FilePrefix, ts, FileSuffix);
    assert PromptFilename(iso) == FilePrefix + ts + FileSuffix;
  }

  // ---------------------------------------------------------------------
  // The capture gate

  /** The guard of `capturePrompt`: capture is on and the text is not blank. */
  function Accepts(isCapturing: bool, promptText: string): (ok: bool)
    ensures ok <==> isCapturing && !AllWhitespace(promptText)
  {
    !(IsBlank(promptText) || !isCapturing)
  }

  /**
   * The messages one call of `capturePrompt` sends: none when the gate
   * refuses, otherwise exactly one `savePrompt` carrying the text unchanged,
   * the file name built from the first clock reading and the raw second one.
   */
  function Emitted(isCapturing: bool, promptText: string, nameClock: string, sentClock: string): (out: seq<Request>)
    ensures |out| <= 1
    ensures out != [] <==> isCapturing && !AllWhitespace(promptText)
    ensures out != [] ==> (out[0].Action() == "savePrompt" && out[0].SavePrompt? && out[0].prompt == promptText &&
                           out[0].filename == PromptFilename(nameClock) && out[0].timestamp == sentClock)
  {
    if Accepts(isCapturing, promptText) then [SavePrompt(promptText, PromptFilename(nameClock), sentClock)]
    else []
  }

  // ---------------------------------------------------------------------
  // Submission triggers

  /**
   * The text a trigger reads from the prompt field: `value || textContent`,
   * where only the empty string counts as false.
   */
  function FieldText(value: string, textContent: string): (t: string)
    ensures value != "" ==> t == value
    ensures value == "" ==> t == textContent
    ensures t == "" <==> value == "" && textContent == ""
  {
    if value != "" then value else textContent
  }

  /**
   * What a trigger hands to `capturePrompt` after the settle delay: the
   * trimmed field text, or nothing when that text is blank.
   */
  function SettledPrompt(value: string, textContent: string): (p: Option<string>)
    ensures p.None? <==> AllWhitespace(FieldText(value, textContent))
    ensures p.Some? ==> p.value == Trim(FieldText(value, textContent)) && !AllWhitespace(p.value)
  {
    var promptText := FieldText(value, textContent);
    if promptText != "" && !IsBlank(promptText) then
      var t := Trim(promptText);
      assert !IsJsWhitespace(t[0]);
      Some(t)
    else None
  }

  /**
   * The messages one settled trigger sends: at most one, and only when
   * capture is on and the field is not blank; it carries the trimmed text.
   */
  function Triggered(isCapturing: bool, value: string, textContent: string, nameClock: string, sentClock: string): (out: seq<Request>)
    ensures |out| <= 1
    ensures out != [] <==> isCapturing && !AllWhitespace(FieldText(value, textContent))
    ensures out != [] ==> out[0] == SavePrompt(Trim(FieldText(value, textContent)), PromptFilename(nameClock), sentClock)
  {
    match SettledPrompt(value, textContent)
    case None => []
    case Some(t) => Emitted(isCapturing, t, nameClock, sentClock)
  }

  /** A `keydown` event as the listener sees it. */
  datatype KeyEvent = KeyEvent(key: string, shiftKey: bool, ctrlKey: bool, altKey: bool, metaKey: bool)

  /** The key rule of the `keydown` listener: Enter without Shift. */
  function IsSubmitKey(e: KeyEvent): (submit: bool)
    ensures submit ==> e.key == "Enter"
    ensures e.shiftKey ==> !submit
    ensures e.key == "Enter" && !e.shiftKey ==> submit
  {
    e.key == "Enter" && !e.shiftKey
  }

  /** Only Shift is looked at: Ctrl, Alt and Meta do not change the decision. */
  lemma OtherModifiersIgnored(e: KeyEvent, ctrl: bool, alt: bool, meta: bool)
    ensures IsSubmitKey(e) <==> IsSubmitKey(e.(ctrlKey := ctrl, altKey := alt, metaKey := meta))
    ensures IsSubmitKey(e) ==> e.key == "Enter"
    ensures e.shiftKey ==> !IsSubmitKey(e)
  {
  }

  // ---------------------------------------------------------------------
  // The popup's requests

  /** The content script's part after a request: its new switch and its answer. */
  datatype Handled = Handled(isCapturing: bool, reply: Option<Reply>)

  /**
   * The `onMessage` listener: `toggleCapture` sets the switch to the
   * requested value and acknowledges; `getStatus` reports the switch and the
   * counter; any other action is not answered and changes nothing.
   */
  function Respond(isCapturing: bool, promptCounter: nat, request: Request): (h: Handled)
    ensures h.reply.Some? <==> request.Action() in {"toggleCapture", "getStatus"}
    ensures h.isCapturing == (if request.ToggleCapture? then request.enabled else isCapturing)
    ensures request.ToggleCapture? ==> h.reply == Some(Ack(true))
    ensures request.GetStatus? ==> h.reply == Some(Status(isCapturing, promptCounter))
  {
    match request
    case ToggleCapture(enabled) => Handled(enabled, Some(Ack(true)))
    case GetStatus => Handled(isCapturing, Some(Status(isCapturing, promptCounter)))
    case _ => Handled(isCapturing, None)
  }

  /** `f(x)` for each `x` of `xs`, one after another. */
  function Each<A, B>(f: A -> seq<B>, xs: seq<A>): (out: seq<B>)
    ensures xs == [] ==> out == []
  {
    if xs == [] then [] else Each(f, xs[..|xs| - 1]) + f(xs[|xs| - 1])
  }

  lemma EachSnoc<A, B>(f: A -> seq<B>, xs: seq<A>, k: nat)
    requires k < |xs|
    ensures Each(f, xs[..k + 1]) == Each(f, xs[..k]) + f(xs[k])
  {
    assert xs[..k + 1][..k] == xs[..k];
  }

  lemma {:induction false} EachNone<A, B>(f: A -> seq<B>, xs: seq<A>)
    requires forall j :: 0 <= j < |xs| ==> f(xs[j]) == []
    ensures Each(f, xs) == []
    decreases |xs|
  {
    if xs != [] {
      var init := xs[..|xs| - 1];
      assert forall j :: 0 <= j < |init| ==> init[j] == xs[j];
      EachNone(f, init);
    }
  }

  lemma {:induction false} EachSingle<A, B>(f: A -> seq<B>, xs: seq<A>)
    requires forall j :: 0 <= j < |xs| ==> |f(xs[j])| == 1
    ensures |Each(f, xs)| == |xs|
    ensures forall k :: 0 <= k < |xs| ==> Each(f, xs)[k] == f(xs[k])[0]
    decreases |xs|
  {
    if xs != [] {
      var n := |xs| - 1;
      var init := xs[..n];
      assert forall j :: 0 <= j < |init| ==> init[j] == xs[j];
      EachSingle(f, init);
      var head := Each(f, init);
      var once := f(xs[n]);
      assert Each(f, xs) == head + once;
      forall k | 0 <= k < |xs| ensures (head + once)[k] == f(xs[k])[0] {
        if k < n {
          assert (head + once)[k] == head[k];
        } else {
          assert (head + once)[k] == once[0];
        }
      }
    }
  }

  /** One listener's capture, with its own clock readings (file name, timestamp). */
  function Listener(isCapturing: bool, value: string, textContent: string): ((string, string)) -> seq<Request> {
    (c: (string, string)) => Triggered(isCapturing, value, textContent, c.0, c.1)
  }

  /**
   * The messages the capture listeners of one event send, one listener per
   * entry of `clocks`: each listener's `capturePrompt` reads the clock
   * itself, so each gets its own pair of readings.
   */
  function EachTriggered(isCapturing: bool, value: string, textContent: string, clocks: seq<(string, string)>): seq<Request> {
    Each(Listener(isCapturing, value, textContent), clocks)
  }

  /** A single listener sends one trigger's messages. */
  lemma EachTriggeredOne(isCapturing: bool, value: string, textContent: string, clock: (string, string))
    ensures EachTriggered(isCapturing, value, textContent, [clock]) ==
            Triggered(isCapturing, value, textContent, clock.0, clock.1)
  {
    var f := Listener(isCapturing, value, textContent);
    assert [clock][..0] == [];
    assert Each(f, [clock]) == [] + f(clock);
  }

  /** Two listeners send the first's messages, then the second's. */
  lemma EachTriggeredTwo(isCapturing: bool, value: string, textContent: string, first: (string, string), second: (string, string))
    ensures EachTriggered(isCapturing, value, textContent, [first, second]) ==
            Triggered(isCapturing, value, textContent, first.0, first.1) +
            Triggered(isCapturing, value, textContent, second.0, second.1)
  {
    EachTriggeredOne(isCapturing, value, textContent, first);
    assert [first, second][..1] == [first];
  }

  /** When capture is off or the field is blank, no listener sends anything. */
  lemma EachTriggeredRefused(isCapturing: bool, value: string, textContent: string, clocks: seq<(string, string)>)
    requires !isCapturing || AllWhitespace(FieldText(value, textContent))
    ensures EachTriggered(isCapturing, value, textContent, clocks) == []
  {
    EachNone(Listener(isCapturing, value, textContent), clocks);
  }

  /**
   * Otherwise every listener captures: the k-th message carries the same
   * trimmed prompt and the k-th listener's own clock readings.
   */
  lemma EachTriggeredAccepted(isCapturing: bool, value: string, textContent: string, clocks: seq<(string, string)>)
    requires isCapturing && !AllWhitespace(FieldText(value, textContent))
    ensures |EachTriggered(isCapturing, value, textContent, clocks)| == |clocks|
    ensures forall k :: 0 <= k < |clocks| ==>
      EachTriggered(isCapturing, value, textContent, clocks)[k] ==
      SavePrompt(Trim(FieldText(value, textContent)), PromptFilename(clocks[k].0), clocks[k].1)
  {
    var f := Listener(isCapturing, value, textContent);
    EachSingle(f, clocks);
  }

  lemma AppendAssoc<T>(a: seq<T>, b: seq<T>, c: seq<T>)
    ensures a + (b + c) == a + b + c
  {
  }

  // ---------------------------------------------------------------------
  // Page elements

  /** The prompt textarea. */
  class PromptField {
    var value: string
    var textContent: string
    /** How many capture `keydown` listeners the content script has attached. */
    var keyListeners: nat
    /** A marker like the buttons' one; only the corrected scan sets it. */
    var keyMarker: bool

    constructor (value: string, textContent: string)
      ensures this.value == value && this.textContent == textContent
      ensures keyListeners == 0 && !keyMarker
    {
      this.value := value;
      this.textContent := textContent;
      keyListeners := 0;
      keyMarker := false;
    }
  }

  /** A send button of the page. */
  class SendButton {
    /** The `data-prompt-listener` attribute. */
    var hasMarker: bool
    /** How many capture `click` listeners the content script has attached. */
    var clickListeners: nat

    /** A button carries the marker exactly when it carries one listener. */
    ghost predicate Valid()
      reads this
    {
      clickListeners == if hasMarker then 1 else 0
    }

    constructor ()
      ensures !hasMarker && clickListeners == 0 && Valid()
    {
      hasMarker := false;
      clickListeners := 0;
    }
  }

  /** Every button found by one scan; `found[i]` holds the matches of the i-th selector. */
  ghost function Buttons(found: seq<seq<SendButton>>): set<SendButton> {
    set i, j | 0 <= i < |found| && 0 <= j < |found[i]| :: found[i][j]
  }

  /**
   * The nested `forEach` over the send-button selectors: a button not yet
   * carrying the marker gets it and one click listener; a marked button,
   * however often it is found, is left alone.
   */
  method MarkButtons(found: seq<seq<SendButton>>)
    modifies Buttons(found)
    ensures forall b :: b in Buttons(found) ==>
      b.hasMarker && b.clickListeners == old(b.clickListeners) + (if old(b.hasMarker) then 0 else 1)
    ensures forall b :: b in Buttons(found) && old(b.Valid()) ==> b.Valid()
  {
    ghost var seen: set<SendButton> := {};
    var i := 0;
    while i < |found|
      invariant 0 <= i <= |found|
      invariant seen <= Buttons(found)
      invariant forall k, l :: 0 <= k < i && 0 <= l < |found[k]| ==> found[k][l] in seen
      invariant forall b :: b in Buttons(found) ==>
        if b in seen then
          b.hasMarker && b.clickListeners == old(b.clickListeners) + (if old(b.hasMarker) then 0 else 1)
        else
          b.hasMarker == old(b.hasMarker) && b.clickListeners == old(b.clickListeners)
    {
      var buttons := found[i];
      var j := 0;
      while j < |buttons|
        invariant 0 <= j <= |buttons|
        invariant seen <= Buttons(found)
        invariant forall k, l :: 0 <= k < i && 0 <= l < |found[k]| ==> found[k][l] in seen
        invariant forall l :: 0 <= l < j ==> buttons[l] in seen
        invariant forall b :: b in Buttons(found) ==>
          if b in seen then
            b.hasMarker && b.clickListeners == old(b.clickListeners) + (if old(b.hasMarker) then 0 else 1)
          else
            b.hasMarker == old(b.hasMarker) && b.clickListeners == old(b.clickListeners)
      {
        var button := buttons[j];
        assert button in Buttons(found);
        if !button.hasMarker {
          button.hasMarker := true;
          button.clickListeners := button.clickListeners + 1;
        }
        seen := seen + {button};
        j := j + 1;
      }
      i := i + 1;
    }
    forall b | b in Buttons(found) ensures b in seen {
      var k, l :| 0 <= k < |found| && 0 <= l < |found[k]| && found[k][l] == b;
    }
  }

  /** The delays, in milliseconds, after which `monitorSubmissions` runs again. */
  const FieldMissingRetry := 1000
  const RescanInterval := 2000

  /**
   * `monitorSubmissions` as written: when the field is found, it receives a
   * further `keydown` listener on every run, since nothing marks it.
   * Returns the delay of the next run.
   */
  method MonitorSubmissionsAsWritten(field: PromptField?, found: seq<seq<SendButton>>) returns (rescanAfter: nat)
    modifies field, Buttons(found)
    ensures field == null ==> (rescanAfter == FieldMissingRetry &&
                               forall b :: b in Buttons(found) ==> unchanged(b))
    ensures field != null ==> (rescanAfter == RescanInterval &&
                               field.keyListeners == old(field.keyListeners) + 1 &&
                               field.keyMarker == old(field.keyMarker) &&
                               field.value == old(field.value) && field.textContent == old(field.textContent))
    ensures field != null ==> forall b :: b in Buttons(found) ==>
      b.hasMarker && b.clickListeners == old(b.clickListeners) + (if old(b.hasMarker) then 0 else 1)
  {
    if field == null {
      return FieldMissingRetry;
    }
    field.keyListeners := field.keyListeners + 1;
    MarkButtons(found);
    rescanAfter := RescanInterval;
  }

  /**
   * `monitorSubmissions` with the field marked like the buttons: however
   * many times it runs, the field carries a single `keydown` listener.
   */
  method MonitorSubmissions(field: PromptField?, found: seq<seq<SendButton>>) returns (rescanAfter: nat)
    modifies field, Buttons(found)
    ensures field == null ==> (rescanAfter == FieldMissingRetry &&
                               forall b :: b in Buttons(found) ==> unchanged(b))
    ensures field != null ==> (rescanAfter == RescanInterval && field.keyMarker &&
                               field.keyListeners == old(field.keyListeners) + (if old(field.keyMarker) then 0 else 1) &&
                               field.value == old(field.value) && field.textContent == old(field.textContent))
    ensures field != null ==> forall b :: b in Buttons(found) ==>
      b.hasMarker && b.clickListeners == old(b.clickListeners) + (if old(b.hasMarker) then 0 else 1)
  {
    if field == null {
      return FieldMissingRetry;
    }
    if !field.keyMarker {
      field.keyMarker := true;
      field.keyListeners := field.keyListeners + 1;
    }
    MarkButtons(found);
    rescanAfter := RescanInterval;
  }

  // ---------------------------------------------------------------------
  // The script's own state

  class CaptureState {
    /** Whether prompts are captured; on when the script starts. */
    var isCapturing: bool
    /** Number of prompts captured since the page loaded. */
    var promptCounter: nat
    /** The messages sent with `chrome.runtime.sendMessage`, oldest first. */
    var sent: seq<Request>

    /** The counter counts the messages sent. */
    ghost predicate Valid()
      reads this
    {
      promptCounter == |sent|
    }

    constructor ()
      ensures Valid()
      ensures isCapturing && promptCounter == 0 && sent == []
    {
      isCapturing := true;
      promptCounter := 0;
      sent := [];
    }

    /**
     * `capturePrompt(promptText)`: when capture is on and the text is not
     * blank, count it and send one `savePrompt`; otherwise do nothing.
     */
    method CapturePrompt(promptText: string, nameClock: string, sentClock: string)
      requires Valid()
      modifies this
      ensures Valid()
      ensures isCapturing == old(isCapturing)
      ensures sent == old(sent) + Emitted(old(isCapturing), promptText, nameClock, sentClock)
      ensures promptCounter == old(promptCounter) + |Emitted(old(isCapturing), promptText, nameClock, sentClock)|
    {
      if !Accepts(isCapturing, promptText) {
        return;
      }
      promptCounter := promptCounter + 1;
      var filename := PromptFilename(nameClock);
      sent := sent + [SavePrompt(promptText, filename, sentClock)];
      assert Emitted(old(isCapturing), promptText, nameClock, sentClock) == [SavePrompt(promptText, filename, sentClock)];
    }

    /**
     * The body of a trigger after its settle delay, given what it read from
     * the field: capture the trimmed text when it is not blank.
     */
    method OnSettled(value: string, textContent: string, nameClock: string, sentClock: string)
      requires Valid()
      modifies this
      ensures Valid()
      ensures isCapturing == old(isCapturing)
      ensures sent == old(sent) + Triggered(old(isCapturing), value, textContent, nameClock, sentClock)
    {
      var settled := SettledPrompt(value, textContent);
      if settled.Some? {
        CapturePrompt(settled.value, nameClock, sentClock);
      }
    }

    /**
     * The capture listeners of one event run one after another, as the
     * browser does, one per entry of `clocks`. Each, when its condition
     * `fires` holds, reads the field and runs `OnSettled` with its own clock
     * readings; when the condition fails or the field is missing (the click
     * listener looks it up again) none of them does anything.
     */
    method RunListeners(field: PromptField?, fires: bool, clocks: seq<(string, string)>)
      requires Valid()
      modifies this
      ensures Valid()
      ensures isCapturing == old(isCapturing)
      ensures field == null || !fires ==> sent == old(sent)
      ensures field != null && fires ==>
        sent == old(sent) + EachTriggered(old(isCapturing), field.value, field.textContent, clocks)
    {
      if field == null || !fires {
        return;
      }
      // Listeners for one event run back to back: the field does not change
      // between them.
      var value, textContent := field.value, field.textContent;
      for k := 0 to |clocks|
        invariant Valid()
        invariant isCapturing == old(isCapturing)
        invariant sent == old(sent) + EachTriggered(isCapturing, value, textContent, clocks[..k])
      {
        ghost var before := EachTriggered(isCapturing, value, textContent, clocks[..k]);
        OnSettled(value, textContent, clocks[k].0, clocks[k].1);
        EachSnoc(Listener(isCapturing, value, textContent), clocks, k);
        AppendAssoc(old(sent), before, Triggered(isCapturing, value, textContent, clocks[k].0, clocks[k].1));
      }
      assert clocks[..|clocks|] == clocks;
    }

    /**
     * One key press: the browser runs every capture `keydown` listener of
     * the field, one per entry of `clocks`, each applying the key rule and
     * capturing on its own. For a submitted non-blank prompt with capture on,
     * the counter rises by the number of listeners.
     */
    method DispatchKeyDown(field: PromptField, e: KeyEvent, clocks: seq<(string, string)>)
      requires Valid()
      requires |clocks| == field.keyListeners
      modifies this
      ensures Valid()
      ensures isCapturing == old(isCapturing)
      ensures sent == old(sent) +
        (if IsSubmitKey(e) then EachTriggered(old(isCapturing), field.value, field.textContent, clocks) else [])
      ensures IsSubmitKey(e) && old(isCapturing) && !AllWhitespace(FieldText(field.value, field.textContent)) ==>
        promptCounter == old(promptCounter) + field.keyListeners
    {
      RunListeners(field, IsSubmitKey(e), clocks);
      if IsSubmitKey(e) && old(isCapturing) && !AllWhitespace(FieldText(field.value, field.textContent)) {
        EachTriggeredAccepted(old(isCapturing), field.value, field.textContent, clocks);
      }
    }

    /**
     * One click: the browser runs every capture `click` listener of the
     * button, one per entry of `clocks`; each looks the field up again
     * after its settle delay (`current`). Listeners of enclosing elements
     * that the click bubbles to are dispatched by further calls.
     */
    method DispatchClick(button: SendButton, current: PromptField?, clocks: seq<(string, string)>)
      requires Valid()
      requires |clocks| == button.clickListeners
      modifies this
      ensures Valid()
      ensures isCapturing == old(isCapturing)
      ensures current == null ==> sent == old(sent)
      ensures current != null ==>
        sent == old(sent) + EachTriggered(old(isCapturing), current.value, current.textContent, clocks)
    {
      RunListeners(current, true, clocks);
    }

    /** The `chrome.runtime.onMessage` listener. */
    method OnMessage(request: Request) returns (reply: Option<Reply>)
      requires Valid()
      modifies this
      ensures Valid()
      ensures isCapturing == Respond(old(isCapturing), old(promptCounter), request).isCapturing
      ensures reply == Respond(old(isCapturing), old(promptCounter), request).reply
      ensures promptCounter == old(promptCounter) && sent == old(sent)
    {
      if request.ToggleCapture? {
        isCapturing := request.enabled;
        reply := Some(Ack(true));
      } else if request.GetStatus? {
        reply := Some(Status(isCapturing, promptCounter));
      } else {
        reply := None;
      }
    }
  }

  // ---------------------------------------------------------------------
  // One prompt, two scans, one Enter

  /** As written: a page whose only element is the prompt field, scanned on load and again two seconds later. */
  method ScanTwiceAsWritten(value: string, textContent: string) returns (field: PromptField)
    ensures fresh(field)
    ensures field.value == value && field.textContent == textContent && field.keyListeners == 2
  {
    field := new PromptField(value, textContent);
    var delay := MonitorSubmissionsAsWritten(field, []);
    delay := MonitorSubmissionsAsWritten(field, []);
  }

  /** The same two scans with the field marked: one listener. */
  method ScanTwice(value: string, textContent: string) returns (field: PromptField)
    ensures fresh(field)
    ensures field.value == value && field.textContent == textContent && field.keyListeners == 1
  {
    field := new PromptField(value, textContent);
    var delay := MonitorSubmissions(field, []);
    delay := MonitorSubmissions(field, []);
  }

  /**
   * As written: the field is scanned twice (the first run and the rescan two
   * seconds later), then the user presses Enter once with capture on. Both
   * keydown listeners run, each capturing with its own clock readings.
   */
  method EnterAfterTwoScansAsWritten(value: string, textContent: string, first: (string, string), second: (string, string))
    returns (saves: seq<Request>)
    ensures saves == Triggered(true, value, textContent, first.0, first.1) +
                     Triggered(true, value, textContent, second.0, second.1)
  {
    var field := ScanTwiceAsWritten(value, textContent);
    var state := new CaptureState();
    var enter := KeyEvent("Enter", false, false, false, false);
    assert IsSubmitKey(enter);
    state.DispatchKeyDown(field, enter, [first, second]);
    EachTriggeredTwo(true, value, textContent, first, second);
    saves := state.sent;
  }

  /** With the field marked, the same sequence of events runs one listener. */
  method EnterAfterTwoScans(value: string, textContent: string, clock: (string, string))
    returns (saves: seq<Request>)
    ensures saves == Triggered(true, value, textContent, clock.0, clock.1)
  {
    var field := ScanTwice(value, textContent);
    var state := new CaptureState();
    var enter := KeyEvent("Enter", false, false, false, false);
    assert IsSubmitKey(enter);
    state.DispatchKeyDown(field, enter, [clock]);
    EachTriggeredOne(true, value, textContent, clock);
    saves := state.sent;
  }

  /**
   * For a non-blank field, the as-written run saves the prompt twice: two
   * `savePrompt` messages with the same trimmed text, each named and stamped
   * from its own clock readings, where the marked field saves it once.
   */
  lemma {:induction false} DuplicateSave(value: string, textContent: string, first: (string, string), second: (string, string))
    requires !AllWhitespace(FieldText(value, textContent))
    ensures var saves := Triggered(true, value, textContent, first.0, first.1) +
                         Triggered(true, value, textContent, second.0, second.1);
            (|saves| == 2 && |Triggered(true, value, textContent, first.0, first.1)| == 1 &&
             saves[0] == SavePrompt(Trim(FieldText(value, textContent)), PromptFilename(first.0), first.1) &&
             saves[1] == SavePrompt(Trim(FieldText(value, textContent)), PromptFilename(second.0), second.1) &&
             saves[0].prompt == saves[1].prompt)
  {
    var a := Triggered(true, value, textContent, first.0, first.1);
    var b := Triggered(true, value, textContent, second.0, second.1);
    assert |a| == 1 && |b| == 1;
    assert (a + b)[0] == a[0] && (a + b)[1] == b[0];
  }
}
