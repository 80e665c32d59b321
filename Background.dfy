/**
 * The background script (background.js): it answers `savePrompt` requests
 * by writing one text record and handing it to the browser's downloads
 * service. The download itself, its outcome and the blob URL that carries
 * the text are the browser's; the model returns the download request it
 * would issue.
 */
module Background {
  import opened Wrappers
  import opened Strings
  import opened Messages

  /** The separator line under every record: fifty `=`. */
  const RuleWidth := 50
  /** The sub-folder of the downloads directory records are saved in. */
  const Folder := "chatgpt-prompts/"

  /**
   * `savePromptToFile`'s text:
   * `Timestamp: <ts>\nPrompt: <text>\n\n<50 '='>\n\n`.
   */
  function RecordContent(timestamp: string, promptText: string): (content: string)
    ensures |content| == 74 + |timestamp| + |promptText|
    ensures content[..11] == "Timestamp: "
    ensures content[11..11 + |timestamp|] == timestamp
    ensures content[11 + |timestamp|..20 + |timestamp|] == "\nPrompt: "
    ensures content[20 + |timestamp|..20 + |timestamp| + |promptText|] == promptText
    ensures content[|content| - 54..|content| - 52] == "\n\n"
    ensures forall i :: |content| - 52 <= i < |content| - 2 ==> content[i] == '='
    ensures content[|content| - 2..] == "\n\n"
  {
    var head := "Timestamp: " + timestamp + "\nPrompt: ";
    var tail := "\n\n" + Repeat('=', RuleWidth) + "\n\n";
    assert head[..11] == "Timestamp: " && head[11..11 + |timestamp|] == timestamp;
    assert head[11 + |timestamp|..] == "\nPrompt: ";
    assert tail[..2] == "\n\n" && tail[52..] == "\n\n";
    assert forall i :: 2 <= i < 52 ==> tail[i] == '=';
    var content := head + promptText + tail;
    assert content[..|head|] == head;
    assert content[|head|..|head| + |promptText|] == promptText;
    assert content[|head| + |promptText|..] == tail;
    content
  }

  /** The path a record is downloaded to, below the downloads directory. */
  function DownloadPath(filename: string): (path: string)
    ensures |path| == |Folder| + |filename|
    ensures path[..|Folder|] == Folder && path[|Folder|..] == filename
  {
    Folder + filename
  }

  /** A `chrome.downloads.download` request. */
  datatype Download = Download(filename: string, content: string, saveAs: bool)

  /** The download `savePromptToFile` asks for: no save dialog. */
  function SavePromptToFile(promptText: string, filename: string, timestamp: string): (d: Download)
    ensures d.filename == DownloadPath(filename)
    ensures d.content == RecordContent(timestamp, promptText)
    ensures !d.saveAs
  {
    Download(DownloadPath(filename), RecordContent(timestamp, promptText), false)
  }

  /** What the background script does with one request. */
  datatype Dispatched = Dispatched(download: Option<Download>, reply: Option<Reply>)

  /**
   * The `onMessage` listener: a `savePrompt` request starts exactly one
   * download and is answered `{success: true}` at once, before the download
   * has an outcome; any other request starts nothing and is not answered.
   */
  function OnMessage(request: Request): (h: Dispatched)
    ensures h.download.Some? <==> request.Action() == "savePrompt"
    ensures h.reply.Some? <==> request.Action() == "savePrompt"
    ensures request.SavePrompt? ==>
      h.reply == Some(Ack(true)) &&
      h.download == Some(SavePromptToFile(request.prompt, request.filename, request.timestamp))
  {
    match request
    case SavePrompt(prompt, filename, timestamp) =>
      Dispatched(Some(SavePromptToFile(prompt, filename, timestamp)), Some(Ack(true)))
    case _ => Dispatched(None, None)
  }
}
