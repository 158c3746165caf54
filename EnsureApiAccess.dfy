/** The consent prompt's mode dispatch: a popup flow, a full-page redirect
    flow, or (automatic) the popup on desktop browsers and the redirect on
    mobile devices. Device detection is a pair of flags given by the
    caller. */
module EnsureApiAccess {
  import opened Prelude

  /** The component's props; `mode` may be missing. */
  datatype AccessProps = AccessProps(mode: Option<string>, connection: string, scopes: seq<string>)

  datatype View = PopupView(props: AccessProps) | RedirectView(props: AccessProps)

  /** What the component returns: one view, or a view for browsers and one
      for mobile devices. */
  datatype Rendered = Single(view: View) | ByDevice(onBrowser: View, onMobile: View)

  /** `EnsureAPIAccess`. */
  function EnsureAPIAccess(props: AccessProps): Rendered {
    if props.mode == Some("popup") then Single(PopupView(props))
    else if props.mode == Some("redirect") then Single(RedirectView(props))
    else ByDevice(PopupView(props), RedirectView(props))
  }

  /** The views on screen: `BrowserView` shows its child only on a
      browser, `MobileView` only on a mobile device. */
  function Displayed(r: Rendered, isBrowser: bool, isMobile: bool): seq<View> {
    match r
    case Single(v) => [v]
    case ByDevice(b, m) => (if isBrowser then [b] else []) + (if isMobile then [m] else [])
  }

  /** 'popup' and 'redirect' show that view alone whatever the device; any
      other mode, or none, shows the popup on a browser and the redirect on
      a mobile device; every view receives the props unchanged. */
  lemma ModeDispatch(props: AccessProps, isBrowser: bool, isMobile: bool)
    ensures props.mode == Some("popup") ==> Displayed(EnsureAPIAccess(props), isBrowser, isMobile) == [PopupView(props)]
    ensures props.mode == Some("redirect") ==> Displayed(EnsureAPIAccess(props), isBrowser, isMobile) == [RedirectView(props)]
    ensures props.mode != Some("popup") && props.mode != Some("redirect") ==>
              Displayed(EnsureAPIAccess(props), isBrowser, isMobile)
              == (if isBrowser then [PopupView(props)] else []) + (if isMobile then [RedirectView(props)] else [])
    ensures forall v :: v in Displayed(EnsureAPIAccess(props), isBrowser, isMobile) ==> v.props == props
  {
  }
}
