/**
 * The toolbar popup (popup.js): it asks the content script of the active
 * tab for its status, renders the answer, retries a few times while the
 * content script is not reachable, and asks for capture to be switched.
 * Its elements are the fields of a `Display` value; the popup's own
 * variables are the fields of `PopupState`.
 */
module Popup {
  import opened Wrappers
  import opened Strings
  import opened Messages

  // ---------------------------------------------------------------------
  // Page detection, URL display, retry rule, elapsed minutes
  // ---------------------------------------------------------------------

  /** `url` mentions `domain` somewhere. */
  ghost predicate Mentions(url: string, domain: string) {
    exists i :: OccursAt(url, domain, i)
  }

  /**
   * `isChatGPTPage`: a missing or empty URL is not a ChatGPT page; any other
   * URL is one exactly when it contains one of the two domain names as plain
   * text, wherever it occurs.
   */
  function IsChatGPTPage(url: Option<string>): (r: bool)
    ensures url.None? || url == Some("") ==> !r
    ensures r <==> url.Some? && (Mentions(url.value, "chat.openai.com") || Mentions(url.value, "chatgpt.com"))
  {
    if url.None? || url.value == "" then
      assert url.Some? ==> forall i :: !OccursAt(url.value, "chat.openai.com", i) && !OccursAt(url.value, "chatgpt.com", i);
      false
    else
      Includes(url.value, "chat.openai.com") || Includes(url.value, "chatgpt.com")
  }

  /**
   * The match is on text, not on the host: a domain name anywhere in the URL,
   * in the path or the query as much as in the host, makes it qualify.
   */
  lemma {:induction false} DomainAnywhereQualifies(before: string, domain: string, after: string)
    requires domain == "chat.openai.com" || domain == "chatgpt.com"
    ensures IsChatGPTPage(Some(before + domain + after))
  {
    var url := before + domain + after;
    assert url[|before|..|before| + |domain|] == domain;
    assert OccursAt(url, domain, |before|);
  }

  /** The widest URL the status view shows without cutting it. */
  const UrlWidth := 60

  /** The URL shown in the status view: cut to 60 characters followed by `...` when longer. */
  function DisplayUrl(url: string): (d: string)
    ensures |url| <= UrlWidth ==> d == url
    ensures |url| > UrlWidth ==> (|d| == UrlWidth + 3 && d[..UrlWidth] == url[..UrlWidth] &&
                                  d[UrlWidth..] == "...")
    ensures |d| <= UrlWidth + 3
  {
    if |url| > UrlWidth then url[..UrlWidth] + "..." else url
  }

  /** Cutting an already shown URL again changes nothing. */
  lemma {:induction false} DisplayUrlIdempotent(url: string)
    ensures DisplayUrl(DisplayUrl(url)) == DisplayUrl(url)
  {
    if |url| > UrlWidth {
      var d := DisplayUrl(url);
      assert d[..UrlWidth] + "..." == d;
    }
  }

  /** The number of retries one status check may schedule. */
  const MaxRetries := 3
  /** The only error text that is retried: the content script is not there yet. */
  const ConnectionError := "Could not establish connection"

  /** Another status request is scheduled exactly below the retry limit and for the connection error. */
  function ShouldRetry(retryCount: nat, message: string): (r: bool)
    ensures r <==> retryCount < MaxRetries && Mentions(message, ConnectionError)
  {
    retryCount < MaxRetries && Includes(message, ConnectionError)
  }

  const MinuteMs := 60000

  /** `Math.floor((now - start) / 60000)`: the whole minutes between two clock readings. */
  function Minutes(now: int, start: int): (m: int)
    ensures m * MinuteMs <= now - start < m * MinuteMs + MinuteMs
  {
    (now - start) / MinuteMs
  }

  // ---------------------------------------------------------------------
  // Responses and the rendered view
  // ---------------------------------------------------------------------

  /** The browser tab the popup asks about; its id is left out. */
  datatype Tab = Tab(url: Option<string>)

  /** The fields of a response object the popup reads; a missing field is `None` or false. */
  datatype ResponseObject = ResponseObject(
    success: bool,
    isCapturing: Option<bool>,
    promptCounter: Option<int>,
    isInitialized: bool,
    currentUrl: Option<string>)

  /** How the popup sees a reply of the content script. */
  function FromReply(r: Reply): (o: ResponseObject)
    ensures r.Ack? ==> o.success == r.success && o.isCapturing.None? && o.promptCounter.None?
    ensures r.Status? ==> (!o.success && o.isCapturing == Some(r.isCapturing) &&
                           o.promptCounter == Some(r.promptCounter as int))
    ensures !o.isInitialized && o.currentUrl.None?
  {
    match r
    case Ack(success) => ResponseObject(success, None, None, false, None)
    case Status(c, n) => ResponseObject(false, Some(c), Some(n), false, None)
  }

  /** The end of one `tabs.sendMessage`: an error, or a response that may be missing. */
  datatype SendOutcome = LastError(message: string) | Delivered(response: Option<ResponseObject>)

  /** The class the status indicator carries: `active`, `inactive` or neither. */
  datatype Indicator = Active | Inactive | Neutral

  /** The status indicator, its text and the message under it. */
  datatype StatusLine = StatusLine(text: string, message: string, indicator: Indicator)

  /** The toggle button: disabled or not, its label, and its `inactive` class. */
  datatype ToggleButton = ToggleButton(disabled: bool, text: string, inactive: bool)

  /** What the popup's elements show. */
  datatype Display = Display(
    status: StatusLine,
    toggle: ToggleButton,
    promptCount: int,
    extensionStatus: string,
    currentUrl: string,
    lastUpdate: string,
    sessionMinutes: int)

  /** `if (errorMessage)`: an error was passed and it is not the empty string. */
  function IsError(err: Option<string>): (e: bool)
    ensures e ==> err.Some?
    ensures err.None? || err == Some("") ==> !e
    ensures err.Some? && err.value != "" ==> e
  {
    err.Some? && err.value != ""
  }

  /** `status && status.isCapturing !== undefined`. */
  function HasStatus(status: Option<ResponseObject>): (h: bool)
    ensures h ==> status.Some?
    ensures status.Some? ==> (h <==> status.value.isCapturing.Some?)
  {
    status.Some? && status.value.isCapturing.Some?
  }

  /** `status.promptCounter || 0`. */
  function ShownCount(promptCounter: Option<int>): (n: int)
    ensures promptCounter.Some? ==> n == promptCounter.value
    ensures promptCounter.None? ==> n == 0
  {
    match promptCounter
    case Some(c) => c
    case None => 0
  }

  /** The error view: the toggle is disabled and marked unavailable; count and URL stay. */
  function ErrorView(d: Display, message: string): (e: Display)
    ensures e.status == StatusLine("Error", message, Inactive)
    ensures e.toggle.disabled && e.toggle.text == "Unavailable" && e.toggle.inactive == d.toggle.inactive
    ensures e.extensionStatus == "Error"
    ensures e.promptCount == d.promptCount && e.currentUrl == d.currentUrl
    ensures e.lastUpdate == d.lastUpdate && e.sessionMinutes == d.sessionMinutes
  {
    d.(status := StatusLine("Error", message, Inactive),
       toggle := d.toggle.(disabled := true, text := "Unavailable"),
       extensionStatus := "Error")
  }

  /** The URL element after a status: a non-empty `currentUrl` of the status replaces it, cut to width. */
  function ShownUrl(shown: string, currentUrl: Option<string>): (u: string)
    ensures currentUrl.Some? && currentUrl.value != "" ==> u == DisplayUrl(currentUrl.value)
    ensures currentUrl.None? || currentUrl == Some("") ==> u == shown
  {
    if currentUrl.Some? && currentUrl.value != "" then DisplayUrl(currentUrl.value) else shown
  }

  /** The view of a status whose capture flag is `c`: the labels follow `c` and the toggle is enabled. */
  function StatusView(d: Display, s: ResponseObject, c: bool): (e: Display)
    ensures e.status.text == (if c then "Active" else "Inactive")
    ensures e.status.message == (if c then "Ready to capture prompts" else "Prompt capture is disabled")
    ensures e.status.indicator == (if c then Active else Inactive)
    ensures !e.toggle.disabled && e.toggle.text == (if c then "Disable" else "Enable") && e.toggle.inactive == !c
    ensures e.promptCount == ShownCount(s.promptCounter)
    ensures e.extensionStatus == (if s.isInitialized then "Initialized" else "Loading")
    ensures e.currentUrl == ShownUrl(d.currentUrl, s.currentUrl)
    ensures e.lastUpdate == d.lastUpdate && e.sessionMinutes == d.sessionMinutes
  {
    d.(status := if c then StatusLine("Active", "Ready to capture prompts", Active)
                 else StatusLine("Inactive", "Prompt capture is disabled", Inactive),
       promptCount := ShownCount(s.promptCounter),
       toggle := ToggleButton(false, if c then "Disable" else "Enable", !c),
       extensionStatus := if s.isInitialized then "Initialized" else "Loading",
       currentUrl := ShownUrl(d.currentUrl, s.currentUrl))
  }

  /** The loading view, for no status: the toggle is disabled; count and URL stay. */
  function LoadingView(d: Display): (e: Display)
    ensures e.status == StatusLine("Loading", "Initializing extension...", Neutral)
    ensures e.toggle.disabled && e.toggle.text == "Loading..." && e.toggle.inactive == d.toggle.inactive
    ensures e.extensionStatus == "Loading"
    ensures e.promptCount == d.promptCount && e.currentUrl == d.currentUrl
    ensures e.lastUpdate == d.lastUpdate && e.sessionMinutes == d.sessionMinutes
  {
    d.(status := StatusLine("Loading", "Initializing extension...", Neutral),
       toggle := d.toggle.(disabled := true, text := "Loading..."),
       extensionStatus := "Loading")
  }

  /**
   * The view `updateUI(status, errorMessage)` leaves behind, from the view
   * before it. An error wins over a status; a status object without an
   * `isCapturing` field shows the loading view. Only a status enables the
   * toggle button.
   */
  function Rendered(d: Display, now: string, status: Option<ResponseObject>, err: Option<string>): (e: Display)
    ensures e.lastUpdate == now && e.sessionMinutes == d.sessionMinutes
    ensures !e.toggle.disabled <==> !IsError(err) && HasStatus(status)
    ensures IsError(err) ==> e == ErrorView(d.(lastUpdate := now), err.value)
    ensures !IsError(err) && HasStatus(status) ==>
      e == StatusView(d.(lastUpdate := now), status.value, status.value.isCapturing.value)
    ensures !IsError(err) && !HasStatus(status) ==> e == LoadingView(d.(lastUpdate := now))
  {
    var d := d.(lastUpdate := now);
    if IsError(err) then ErrorView(d, err.value)
    else if HasStatus(status) then StatusView(d, status.value, status.value.isCapturing.value)
    else LoadingView(d)
  }

  // ---------------------------------------------------------------------
  // The status check and its retries
  // ---------------------------------------------------------------------

  /** The messages a status check can end with instead of a status. */
  datatype Notice =
    | NoTab                     // no active tab
    | WrongPage                 // the tab is not a ChatGPT page
    | Retrying(attempt: nat)    // a retry is scheduled; this is its number
    | NotReady                  // a send error that is not retried
    | NoResponse                // the message was delivered but nothing came back

  /** The text `updateUI` is given for a notice; none is empty, so each shows the error view. */
  function NoticeText(n: Notice): (t: string)
    ensures t != []
  {
    match n
    case NoTab => "No active tab found"
    case WrongPage => "Please navigate to ChatGPT (chat.openai.com or chatgpt.com)"
    case Retrying(attempt) =>
      "Extension loading... (attempt " + NatToString(attempt) + "/" + NatToString(MaxRetries) + ")"
    case NotReady => "Extension not ready. Please refresh the ChatGPT page."
    case NoResponse => "No response from extension. Try refreshing the page."
  }

  /** The `updateUI` call one status check ends in, and the retry it schedules. */
  datatype Decision = Decision(status: Option<ResponseObject>, notice: Option<Notice>, retry: Option<nat>)

  /** The error argument of that `updateUI` call. */
  function ErrorOf(d: Decision): (err: Option<string>)
    ensures d.notice.Some? ==> err == Some(NoticeText(d.notice.value)) && IsError(err)
    ensures d.notice.None? ==> err.None?
  {
    if d.notice.Some? then Some(NoticeText(d.notice.value)) else None
  }

  /**
   * `getCurrentStatus(retryCount)` once the tab query and the message have
   * come back. A retry is scheduled exactly for the connection error below
   * the limit, with the next count; a status is rendered exactly when the
   * page qualifies and a response arrived; every other path shows a notice.
   */
  function StatusDecision(retryCount: nat, tab: Option<Tab>, outcome: SendOutcome): (s: Decision)
    ensures s.retry.Some? <==> (tab.Some? && IsChatGPTPage(tab.value.url) && outcome.LastError? &&
                                ShouldRetry(retryCount, outcome.message))
    ensures s.retry.Some? ==> s.retry == Some(retryCount + 1) && s.notice == Some(Retrying(retryCount + 1))
    ensures s.status.Some? <==> (tab.Some? && IsChatGPTPage(tab.value.url) && outcome.Delivered? &&
                                 outcome.response.Some?)
    ensures s.status.Some? ==> s.status == outcome.response
    ensures s.status.None? <==> s.notice.Some?
    ensures tab.None? ==> s.notice == Some(NoTab)
    ensures tab.Some? && !IsChatGPTPage(tab.value.url) ==> s.notice == Some(WrongPage)
    ensures (tab.Some? && IsChatGPTPage(tab.value.url) && outcome.LastError? &&
             !ShouldRetry(retryCount, outcome.message)) ==> s.notice == Some(NotReady)
    ensures (tab.Some? && IsChatGPTPage(tab.value.url) && outcome.Delivered? &&
             outcome.response.None?) ==> s.notice == Some(NoResponse)
  {
    if tab.None? then Decision(None, Some(NoTab), None)
    else if !IsChatGPTPage(tab.value.url) then Decision(None, Some(WrongPage), None)
    else match outcome
      case LastError(message) =>
        if ShouldRetry(retryCount, message) then
          Decision(None, Some(Retrying(retryCount + 1)), Some(retryCount + 1))
        else Decision(None, Some(NotReady), None)
      case Delivered(response) =>
        if response.Some? then Decision(response, None, None)
        else Decision(None, Some(NoResponse), None)
  }

  /** What the tab query and the message give on one attempt. */
  datatype Attempt = Attempt(tab: Option<Tab>, outcome: SendOutcome)

  /**
   * A status check followed by the retries it schedules, one attempt each:
   * the chain goes on while an attempt schedules a retry, so a check started
   * at count 0 makes at most three retries, four attempts in all.
   */
  function RetryChain(retryCount: nat, attempts: seq<Attempt>): (ds: seq<Decision>)
    ensures |ds| <= |attempts| && (attempts != [] ==> ds != [])
    ensures |ds| <= (if retryCount < MaxRetries then MaxRetries - retryCount + 1 else 1)
    ensures forall i :: 0 <= i < |ds| ==> ds[i] == StatusDecision(retryCount + i, attempts[i].tab, attempts[i].outcome)
    ensures forall i :: 0 <= i < |ds| - 1 ==> ds[i].retry == Some(retryCount + i + 1)
    decreases |attempts|
  {
    if attempts == [] then []
    else
      var s := StatusDecision(retryCount, attempts[0].tab, attempts[0].outcome);
      if s.retry.Some? then
        var tail := attempts[1..];
        var rest := RetryChain(retryCount + 1, tail);
        var ds := [s] + rest;
        assert forall i :: 1 <= i < |ds| ==> ds[i] == rest[i - 1] && attempts[i] == tail[i - 1];
        ds
      else [s]
  }

  /** A chain that ends before its attempts run out ends at an attempt that schedules no retry. */
  lemma {:induction false} ChainStopsWithoutRetry(retryCount: nat, attempts: seq<Attempt>)
    requires |RetryChain(retryCount, attempts)| < |attempts|
    ensures RetryChain(retryCount, attempts) != []
    ensures var ds := RetryChain(retryCount, attempts); ds[|ds| - 1].retry.None?
    decreases |attempts|
  {
    var s := StatusDecision(retryCount, attempts[0].tab, attempts[0].outcome);
    if s.retry.Some? {
      var rest := RetryChain(retryCount + 1, attempts[1..]);
      ChainStopsWithoutRetry(retryCount + 1, attempts[1..]);
      assert RetryChain(retryCount, attempts) == [s] + rest;
    }
  }

  /** In a chain started by the popup (count 0) only the first three attempts can schedule a retry. */
  lemma {:induction false} AtMostThreeRetries(attempts: seq<Attempt>)
    ensures |RetryChain(0, attempts)| <= MaxRetries + 1
    ensures forall i :: 0 <= i < |RetryChain(0, attempts)| && RetryChain(0, attempts)[i].retry.Some? ==> i < MaxRetries
  {
    var ds := RetryChain(0, attempts);
    forall i | 0 <= i < |ds| && ds[i].retry.Some? ensures i < MaxRetries {
      assert ds[i] == StatusDecision(i, attempts[i].tab, attempts[i].outcome);
    }
  }

  /** The text the URL element gets before the page check: `tab.url || 'Unknown'`. */
  function TabUrlText(url: Option<string>): (t: string)
    ensures url.Some? && url.value != "" ==> t == url.value
    ensures url.None? || url == Some("") ==> t == "Unknown"
  {
    if url.Some? && url.value != "" then url.value else "Unknown"
  }

  /** The view once the tab query has come back, before `updateUI`. */
  function AfterTabQuery(d: Display, tab: Option<Tab>): (e: Display)
    ensures tab.None? ==> e == d
    ensures tab.Some? ==> e == d.(currentUrl := TabUrlText(tab.value.url))
  {
    if tab.Some? then d.(currentUrl := TabUrlText(tab.value.url)) else d
  }

  /** The toggle's answer counts as success only when a response with `success` arrived. */
  function ToggleSucceeded(outcome: SendOutcome): (ok: bool)
    ensures outcome.LastError? ==> !ok
    ensures outcome.Delivered? && outcome.response.None? ==> !ok
    ensures outcome.Delivered? && outcome.response.Some? ==> (ok <==> outcome.response.value.success)
  {
    outcome.Delivered? && outcome.response.Some? && outcome.response.value.success
  }

  const ToggleErrorText := "Failed to toggle. Try refreshing the page."
  const ToggleRefusedText := "Toggle failed. Try refreshing the page."

  // ---------------------------------------------------------------------
  // The popup's state
  // ---------------------------------------------------------------------

  class PopupState {
    /** The popup's belief about capture; the toggle asks for its opposite. */
    var isCapturing: bool
    var display: Display
    /** `Date.now()` when the popup opened. */
    const startTime: int

    /** The popup as it opens: `isCapturing` starts true; the page's initial view is given. */
    constructor(startTime: int, page: Display)
      ensures isCapturing && display == page && this.startTime == startTime
    {
      isCapturing := true;
      display := page;
      this.startTime := startTime;
    }

    /** `updateUI`: renders the view and, for a status, adopts its capture flag. */
    method UpdateUI(now: string, status: Option<ResponseObject>, err: Option<string>)
      modifies this
      ensures display == Rendered(old(display), now, status, err)
      ensures isCapturing == (if !IsError(err) && HasStatus(status) then status.value.isCapturing.value
                              else old(isCapturing))
    {
      display := display.(lastUpdate := now);
      if IsError(err) {
        display := display.(status := StatusLine("Error", err.value, Inactive));
        display := display.(toggle := display.toggle.(disabled := true, text := "Unavailable"));
        display := display.(extensionStatus := "Error");
        return;
      }
      if HasStatus(status) {
        var s := status.value;
        var c := s.isCapturing.value;
        display := display.(status := if c then StatusLine("Active", "Ready to capture prompts", Active)
                                      else StatusLine("Inactive", "Prompt capture is disabled", Inactive));
        display := display.(promptCount := ShownCount(s.promptCounter));
        display := display.(toggle := ToggleButton(false, if c then "Disable" else "Enable", !c));
        isCapturing := c;
        display := display.(extensionStatus := if s.isInitialized then "Initialized" else "Loading");
        display := display.(currentUrl := ShownUrl(display.currentUrl, s.currentUrl));
      } else {
        display := display.(status := StatusLine("Loading", "Initializing extension...", Neutral));
        display := display.(toggle := display.toggle.(disabled := true, text := "Loading..."));
        display := display.(extensionStatus := "Loading");
      }
    }

    /**
     * One run of `getCurrentStatus(retryCount)`; the retry count it returns,
     * if any, is the argument of the run scheduled two seconds later.
     */
    method GetCurrentStatus(now: string, retryCount: nat, tab: Option<Tab>, outcome: SendOutcome)
      returns (retryAfter: Option<nat>)
      modifies this
      ensures retryAfter == StatusDecision(retryCount, tab, outcome).retry
      ensures display == Rendered(AfterTabQuery(old(display), tab), now,
                                  StatusDecision(retryCount, tab, outcome).status,
                                  ErrorOf(StatusDecision(retryCount, tab, outcome)))
      ensures var s := StatusDecision(retryCount, tab, outcome);
              isCapturing == (if HasStatus(s.status) then s.status.value.isCapturing.value else old(isCapturing))
    {
      ghost var decision := StatusDecision(retryCount, tab, outcome);
      retryAfter := None;
      if tab.None? {
        assert decision == Decision(None, Some(NoTab), None);
        UpdateUI(now, None, Some(NoticeText(NoTab)));
        return;
      }
      display := display.(currentUrl := TabUrlText(tab.value.url));
      assert display == AfterTabQuery(old(display), tab);
      if !IsChatGPTPage(tab.value.url) {
        assert decision == Decision(None, Some(WrongPage), None);
        UpdateUI(now, None, Some(NoticeText(WrongPage)));
        return;
      }
      match outcome {
        case LastError(message) =>
          if ShouldRetry(retryCount, message) {
            assert decision == Decision(None, Some(Retrying(retryCount + 1)), Some(retryCount + 1));
            retryAfter := Some(retryCount + 1);
            UpdateUI(now, None, Some(NoticeText(Retrying(retryCount + 1))));
          } else {
            assert decision == Decision(None, Some(NotReady), None);
            UpdateUI(now, None, Some(NoticeText(NotReady)));
          }
        case Delivered(response) =>
          if response.Some? {
            assert decision == Decision(response, None, None);
            UpdateUI(now, response, None);
          } else {
            assert decision == Decision(None, Some(NoResponse), None);
            UpdateUI(now, None, Some(NoticeText(NoResponse)));
          }
      }
    }

    /**
     * `toggleCapture`: with the button enabled and a ChatGPT tab, marks the
     * button as updating and asks for the opposite of the popup's flag.
     */
    method RequestToggle(tab: Option<Tab>) returns (request: Option<Request>)
      modifies this
      ensures request.Some? <==> !old(display.toggle.disabled) && tab.Some? && IsChatGPTPage(tab.value.url)
      ensures request.Some? ==> (request.value == ToggleCapture(!isCapturing) &&
                                 display == old(display).(toggle := old(display.toggle).(disabled := true, text := "Updating...")))
      ensures request.None? ==> display == old(display)
      ensures isCapturing == old(isCapturing)
    {
      if display.toggle.disabled {
        return None;
      }
      if tab.None? || !IsChatGPTPage(tab.value.url) {
        return None;
      }
      var newState := !isCapturing;
      display := display.(toggle := display.toggle.(disabled := true, text := "Updating..."));
      request := Some(ToggleCapture(newState));
    }

    /**
     * The toggle's callback: on success it asks for a status refresh half a
     * second later and changes nothing yet; otherwise it shows an error.
     */
    method OnToggleReply(now: string, outcome: SendOutcome) returns (refresh: bool)
      modifies this
      ensures refresh <==> ToggleSucceeded(outcome)
      ensures refresh ==> display == old(display)
      ensures !refresh ==> display == Rendered(old(display), now, None,
                                               Some(if outcome.LastError? then ToggleErrorText else ToggleRefusedText))
      ensures isCapturing == old(isCapturing)
    {
      if outcome.LastError? {
        UpdateUI(now, None, Some(ToggleErrorText));
        return false;
      }
      if ToggleSucceeded(outcome) {
        return true;
      }
      UpdateUI(now, None, Some(ToggleRefusedText));
      return false;
    }

    /** `updateSessionTimer`: shows the whole minutes since the popup opened. */
    method UpdateSessionTimer(now: int)
      modifies this
      ensures display == old(display).(sessionMinutes := Minutes(now, startTime))
      ensures isCapturing == old(isCapturing)
    {
      display := display.(sessionMinutes := Minutes(now, startTime));
    }
  }
}
