/**
 * The messages the three parts of the extension exchange through the
 * browser's runtime and tab messaging. Each request is told apart by its
 * `action` string in the source; here each known action is a constructor.
 */
module Messages {

  /** The action names the extension's own code sends. */
  const KnownActions: set<string> := {"savePrompt", "toggleCapture", "getStatus", "debugInfo"}

  /** Any other action name. */
  type UnknownAction = a: string | a !in KnownActions witness ""

  /** A request, each carrying the fields its sender sets. */
  datatype Request =
    | SavePrompt(prompt: string, filename: string, timestamp: string)  // content script -> background
    | ToggleCapture(enabled: bool)                                     // popup -> content script
    | GetStatus                                                        // popup -> content script
    | DebugInfo                                                        // popup -> content script
    | Other(name: UnknownAction)
  {
    /** The `action` field of the request object. */
    function Action(): (a: string)
      ensures (a in KnownActions) == !Other?
    {
      match this
      case SavePrompt(_, _, _) => "savePrompt"
      case ToggleCapture(_) => "toggleCapture"
      case GetStatus => "getStatus"
      case DebugInfo => "debugInfo"
      case Other(name) => name
    }
  }

  /** An answer passed to `sendResponse`. */
  datatype Reply =
    | Ack(success: bool)                                   // `{success: ...}`
    | Status(isCapturing: bool, promptCounter: nat)        // `{isCapturing, promptCounter}`
}
