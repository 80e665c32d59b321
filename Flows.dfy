/**
 * The three scripts together: what a captured prompt turns into on disk,
 * and what the popup shows after it switches capture through the content
 * script.
 */
module Flows {
  import opened Wrappers
  import opened Strings
  import opened Messages
  import Content
  import Background
  import Popup

  /**
   * An accepted prompt reaches the background script as one download under
   * `chatgpt-prompts/`, named after the sanitised first clock reading, whose
   * record carries the prompt verbatim after the second clock reading; the
   * request is acknowledged.
   */
  lemma CaptureReachesDownload(isCapturing: bool, promptText: string, nameClock: string, sentClock: string)
    requires isCapturing && !AllWhitespace(promptText)
    ensures |Content.Emitted(isCapturing, promptText, nameClock, sentClock)| == 1
    ensures var h := Background.OnMessage(Content.Emitted(isCapturing, promptText, nameClock, sentClock)[0]);
            (h.reply == Some(Ack(true)) && h.download.Some? &&
             h.download.value.filename ==
               Background.Folder + Content.FilePrefix + Content.SanitizeTimestamp(nameClock) + Content.FileSuffix &&
             h.download.value.content == Background.RecordContent(sentClock, promptText))
  {
    var f := Content.PromptFilename(nameClock);
    var out := Content.Emitted(isCapturing, promptText, nameClock, sentClock);
    assert out == [SavePrompt(promptText, f, sentClock)];
    var h := Background.OnMessage(out[0]);
    assert h.download == Some(Background.SavePromptToFile(promptText, f, sentClock));
    assert f == Content.FilePrefix + Content.SanitizeTimestamp(nameClock) + Content.FileSuffix;
    AppendAssoc3(Background.Folder, Content.FilePrefix, Content.SanitizeTimestamp(nameClock), Content.FileSuffix);
  }

  lemma AppendAssoc3(a: string, b: string, c: string, d: string)
    ensures a + (b + c + d) == a + b + c + d
  {
  }

  /**
   * The saved file's path has the folder and the file prefix in front, the
   * `.txt` extension at its end, and no `:` anywhere.
   */
  lemma {:induction false} DownloadPathShape(nameClock: string)
    ensures var path := Background.DownloadPath(Content.PromptFilename(nameClock));
            (|path| == |nameClock| + 35 &&
             path[..31] == Background.Folder + Content.FilePrefix &&
             path[|path| - 4..] == Content.FileSuffix &&
             ':' !in path)
  {
    var f := Content.PromptFilename(nameClock);
    Content.FilenameSeparators(nameClock);
    var path := Background.DownloadPath(f);
    assert path[..31] == path[..16] + path[16..31];
    assert path[16..31] == f[..15];
    assert path[|path| - 4..] == f[|f| - 4..];
    assert ':' !in Background.Folder;
    assert path == Background.Folder + f;
  }

  /**
   * The content script's status reply never carries `isInitialized` or
   * `currentUrl`, so the popup shows an enabled toggle, the counter, an
   * unchanged URL and the extension status `Loading` for it.
   */
  lemma ContentStatusShowsLoading(d: Popup.Display, now: string, isCapturing: bool, promptCounter: nat)
    ensures var e := Popup.Rendered(d, now, Some(Popup.FromReply(Status(isCapturing, promptCounter))), None);
            (e.extensionStatus == "Loading" && e.promptCount == promptCounter &&
             !e.toggle.disabled && e.currentUrl == d.currentUrl &&
             e.status.text == (if isCapturing then "Active" else "Inactive"))
  {
  }

  /** The content script's answer to a toggle always counts as success in the popup. */
  lemma ToggleAlwaysAcknowledged(isCapturing: bool, promptCounter: nat, enabled: bool)
    ensures var h := Content.Respond(isCapturing, promptCounter, ToggleCapture(enabled));
            (h.reply.Some? && h.isCapturing == enabled &&
             Popup.ToggleSucceeded(Popup.Delivered(Some(Popup.FromReply(h.reply.value)))))
  {
  }

  /**
   * A click on the enabled toggle of a ChatGPT tab, the content script's
   * answer, and the status refresh it leads to: capture ends up as the
   * opposite of what the popup believed, no prompt is counted or sent, and
   * the popup then agrees with the content script.
   */
  method ToggleRoundTrip(popup: Popup.PopupState, content: Content.CaptureState, tab: Popup.Tab, now: string)
    requires content.Valid()
    requires !popup.display.toggle.disabled && Popup.IsChatGPTPage(tab.url)
    modifies popup, content
    ensures content.Valid()
    ensures content.isCapturing == !old(popup.isCapturing)
    ensures content.promptCounter == old(content.promptCounter) && content.sent == old(content.sent)
    ensures popup.isCapturing == content.isCapturing
    ensures popup.display.toggle ==
            Popup.ToggleButton(false, if content.isCapturing then "Disable" else "Enable", !content.isCapturing)
    ensures popup.display.promptCount == content.promptCounter
    ensures popup.display.extensionStatus == "Loading"
  {
    var request := popup.RequestToggle(Some(tab));
    var reply := content.OnMessage(request.value);
    var refresh := popup.OnToggleReply(now, Popup.Delivered(Some(Popup.FromReply(reply.value))));
    assert refresh;
    var status := content.OnMessage(GetStatus);
    var retry := popup.GetCurrentStatus(now, 0, Some(tab), Popup.Delivered(Some(Popup.FromReply(status.value))));
  }
}
