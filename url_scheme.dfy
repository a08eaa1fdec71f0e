/**
 * `StreamResourceLoaderDelegate.transformUrlScheme`: the player is handed
 * URLs whose scheme carries the marker prefix `ctls`, so that AVFoundation
 * passes them to the custom resource loader; the loader strips the marker
 * again before it issues the real request.
 */
module UrlScheme {
  import opened Wrappers
  import opened Strings

  const CUSTOM_SCHEME_PREFIX := "ctls"

  /**
   * A URL as `URLComponents` sees it: the scheme, if any, and everything
   * after it, which the transform never looks at. `decomposable` is false
   * for a URL that `URLComponents(url:resolvingAgainstBaseURL:)` refuses.
   */
  datatype Url = Url(scheme: Option<string>, rest: string, decomposable: bool)

  /** The new scheme: strip a leading marker, or else prepend one. */
  function TransformScheme(scheme: string): (r: string)
    ensures StartsWith(scheme, CUSTOM_SCHEME_PREFIX) ==> CUSTOM_SCHEME_PREFIX + r == scheme
    ensures !StartsWith(scheme, CUSTOM_SCHEME_PREFIX) ==> r == CUSTOM_SCHEME_PREFIX + scheme
  {
    if StartsWith(scheme, CUSTOM_SCHEME_PREFIX) then scheme[|CUSTOM_SCHEME_PREFIX|..]
    else CUSTOM_SCHEME_PREFIX + scheme
  }

  function TransformUrlScheme(url: Url): (r: Url)
    ensures r.rest == url.rest && r.decomposable == url.decomposable
    ensures !url.decomposable || url.scheme.None? ==> r == url
    ensures url.decomposable && url.scheme.Some? ==> r.scheme == Some(TransformScheme(url.scheme.value))
  {
    if !url.decomposable then url
    else
      match url.scheme
      case None => url
      case Some(scheme) => url.(scheme := Some(TransformScheme(scheme)))
  }

  /** Marking a scheme that is not already marked, then unmarking it, gives it back. */
  lemma UnwrapWrap(scheme: string)
    requires !StartsWith(scheme, CUSTOM_SCHEME_PREFIX)
    ensures TransformScheme(scheme) == CUSTOM_SCHEME_PREFIX + scheme
    ensures TransformScheme(TransformScheme(scheme)) == scheme
  {
    var w := CUSTOM_SCHEME_PREFIX + scheme;
    assert w[..|CUSTOM_SCHEME_PREFIX|] == CUSTOM_SCHEME_PREFIX;
    assert w[|CUSTOM_SCHEME_PREFIX|..] == scheme;
  }

  /** The transform undoes itself on every scheme that does not start with the marker twice. */
  lemma TransformTwice(url: Url)
    requires url.scheme.Some? ==> !StartsWith(url.scheme.value, CUSTOM_SCHEME_PREFIX + CUSTOM_SCHEME_PREFIX)
    ensures TransformUrlScheme(TransformUrlScheme(url)) == url
  {
    if url.decomposable && url.scheme.Some? {
      var s := url.scheme.value;
      if StartsWith(s, CUSTOM_SCHEME_PREFIX) {
        var u := s[|CUSTOM_SCHEME_PREFIX|..];
        assert s == CUSTOM_SCHEME_PREFIX + u;
        if |u| >= |CUSTOM_SCHEME_PREFIX| {
          assert s[..2 * |CUSTOM_SCHEME_PREFIX|] == CUSTOM_SCHEME_PREFIX + u[..|CUSTOM_SCHEME_PREFIX|];
        }
        UnwrapWrap(u);
      } else {
        UnwrapWrap(s);
      }
    }
  }

  /** The bound is tight: a doubly marked scheme loses both markers. */
  lemma DoublyMarkedSchemeIsNotRestored()
    ensures TransformScheme(TransformScheme("ctlsctlshttps")) == "https"
  {
    assert "ctlsctlshttps"[..4] == CUSTOM_SCHEME_PREFIX;
    assert "ctlsctlshttps"[4..] == "ctlshttps";
    assert "ctlshttps"[..4] == CUSTOM_SCHEME_PREFIX;
    assert "ctlshttps"[4..] == "https";
  }

  /** The player's stream URL round trip: `https` is handed out as `ctlshttps` and fetched as `https`. */
  lemma HttpsRoundTrip(rest: string)
    ensures TransformUrlScheme(Url(Some("https"), rest, true)) == Url(Some("ctlshttps"), rest, true)
    ensures TransformUrlScheme(Url(Some("ctlshttps"), rest, true)) == Url(Some("https"), rest, true)
  {
    assert "https"[..4][0] == 'h';
    assert "ctlshttps"[..4] == CUSTOM_SCHEME_PREFIX;
    assert "ctlshttps"[4..] == "https";
    UnwrapWrap("https");
    assert CUSTOM_SCHEME_PREFIX + "https" == "ctlshttps";
  }
}
