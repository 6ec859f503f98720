/** The values that pass between a browser source and the embedded browser
    engine. The engine's own services (creating, closing, reloading a
    browser, delivering process messages and key events) are opaque, so a
    request to the engine is named by what it asks for. */
module Cef {
  import opened KeyEvents

  /** A live browser instance of the engine (a non-null CefRefPtr<CefBrowser>). */
  datatype Handle = Handle(id: nat)

  /** The one-member JSON object an event carries, such as {"visible": true}. */
  datatype Payload = BoolField(key: string, value: bool)

  /** What a task asks of a browser. */
  datatype BrowserOp =
    | Close                                   // detach the client, hide, CloseBrowser(true)
    | Visibility(visible: bool)               // the "Visibility" process message
    | Active(active: bool)                    // the "Active" process message
    | Reload                                  // ReloadIgnoreCache
    | JSEvent(name: string, payload: Payload) // the "DispatchJSEvent" process message
    | Keys(events: seq<KeyEvent>)             // SendKeyEvent, once per event
    | MuteAudio                               // SetAudioMuted(true)

  /** What CreateBrowser's task passes to CreateBrowserSync. */
  datatype CreateParams = CreateParams(
    width: int,
    height: int,
    fps: int,
    url: string,
    webSecurityDisabled: bool,
    rerouteAudio: bool)
}
