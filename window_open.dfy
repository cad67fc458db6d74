/** The `window.open` replacement installed by src/webview/plugin.js:106-115.
    A call that names neither a frame nor window features is a plain link: its
    URL goes to the host as `new-window`. Any other call is a genuine popup and
    goes to the original `window.open` unchanged. */
module WindowOpen {
  import opened JsValues

  datatype OpenAction =
    | SendNewWindowToHost(url: JsString)
    | OriginalWindowOpen(url: JsString, frameName: JsString, features: JsString)

  /** What `window.open(url, frameName, features)` does. */
  function Open(url: JsString, frameName: JsString, features: JsString): (a: OpenAction)
    ensures a.SendNewWindowToHost? <==> !Truthy(frameName) && !Truthy(features)
    ensures a.SendNewWindowToHost? ==> a.url == url
    ensures a.OriginalWindowOpen? ==> a == OriginalWindowOpen(url, frameName, features)
  {
    if !Truthy(frameName) && !Truthy(features) then SendNewWindowToHost(url)
    else OriginalWindowOpen(url, frameName, features)
  }

  /** Empty strings are as absent as undefined: only truthiness of the two
      optional arguments decides, never their text. */
  lemma OnlyTruthinessDecides(url: JsString, frameName: JsString, features: JsString,
                              otherFrameName: JsString, otherFeatures: JsString)
    requires Truthy(frameName) == Truthy(otherFrameName)
    requires Truthy(features) == Truthy(otherFeatures)
    ensures Open(url, frameName, features).SendNewWindowToHost?
            == Open(url, otherFrameName, otherFeatures).SendNewWindowToHost?
  {
  }

  /** A plain link goes to the host; a popup with a target and features does not. */
  lemma LinkAndPopupExamples()
    ensures Open(Some("https://x.com"), None, None) == SendNewWindowToHost(Some("https://x.com"))
    ensures Open(Some("https://x.com"), Some(""), Some("")) == SendNewWindowToHost(Some("https://x.com"))
    ensures Open(Some("https://x.com"), Some("_blank"), Some("width=1"))
            == OriginalWindowOpen(Some("https://x.com"), Some("_blank"), Some("width=1"))
  {
  }
}
