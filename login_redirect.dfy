/**
 * The login page's guard on its `redirect` parameter (js/login.js): after signing in, the
 * page navigates to the sanitised target with `window.location.href = target`.
 */
module LoginRedirect {
  import opened Util
  import opened JsText

  const DefaultTarget: string := "control.html"

  /** `sanitizeRedirect(target)` as written: a missing or empty target, or an `http(s)://` one, becomes `control.html`. */
  function SanitizeRedirect(target: Option<string>): (r: string)
    ensures r != [] && !HasHttpScheme(r)
    ensures target.Some? && target.value != [] && !HasHttpScheme(target.value) ==> r == target.value
    ensures target.None? || target.value == [] || HasHttpScheme(target.value) ==> r == DefaultTarget
  {
    DefaultIsRelative();
    if target.None? || target.value == [] || HasHttpScheme(target.value) then DefaultTarget else target.value
  }

  /** Sanitising a sanitised target changes nothing. */
  lemma SanitizeIdempotent(target: Option<string>)
    ensures SanitizeRedirect(Some(SanitizeRedirect(target))) == SanitizeRedirect(target)
  {
  }

  /** `control.html` is not an `http(s)://` address. */
  lemma DefaultIsRelative()
    ensures !HasHttpScheme(DefaultTarget)
  {
    NotHttpUnlessH(DefaultTarget);
  }

  /** `control.html` stays on the site: the browser sees neither a scheme nor a host in it. */
  lemma DefaultStaysOnSite()
    ensures !LeavesSite(DefaultTarget)
  {
    DefaultReadsAsItself();
    DefaultHasNoScheme();
  }

  lemma DefaultReadsAsItself()
    ensures BrowserView(DefaultTarget) == DefaultTarget
  {
    ReadsAsItself(DefaultTarget);
  }

  lemma DefaultHasNoScheme()
    ensures !StartsWithScheme(DefaultTarget)
  {
    DefaultTailHasNoColon();
  }

  lemma DefaultTailHasNoColon()
    ensures !SchemeRest(DefaultTarget[1..])
  {
    NoColonNoScheme(DefaultTarget[1..]);
  }

  /** A target whose first letter is not `h` in any case is not `http(s)://`. */
  lemma NotHttpUnlessH(s: string)
    requires s != [] && s[0] != 'h' && s[0] != 'H'
    ensures !HasHttpScheme(s)
  {
    if HasHttpScheme(s) {
      SchemeStartsWithH(s);
    }
  }

  /** A target starting with a visible character and free of tabs and newlines reads as itself. */
  lemma ReadsAsItself(s: string)
    requires s != [] && s[0] > ' '
    requires forall i :: 0 <= i < |s| ==> !IsTabOrNewline(s[i])
    ensures BrowserView(s) == s
  {
    RemoveTabNewlineKeeps(s);
  }

  /*
   * How a browser reads the target once it is assigned to `location.href`, after the URL
   * Standard of WHATWG (its basic URL parser): ASCII tab and newline are removed anywhere,
   * leading C0 controls and spaces are dropped, a leading `scheme:` makes the URL absolute,
   * and, against an http(s) page, two leading slashes (either `/` or `\`) start a host.
   */

  predicate IsTabOrNewline(c: char) {
    c == '\t' || c == '\n' || c == '\r'
  }

  function RemoveTabNewline(s: string): string {
    if s == [] then []
    else (if IsTabOrNewline(s[0]) then [] else [s[0]]) + RemoveTabNewline(s[1..])
  }

  /** A string without tab or newline reads as itself. */
  lemma {:induction false} RemoveTabNewlineKeeps(s: string)
    requires forall i :: 0 <= i < |s| ==> !IsTabOrNewline(s[i])
    ensures RemoveTabNewline(s) == s
  {
    if s != [] {
      RemoveTabNewlineKeeps(s[1..]);
    }
  }

  function StripLeadingControls(s: string): string {
    if s != [] && s[0] <= ' ' then StripLeadingControls(s[1..]) else s
  }

  /** The start of the target as the URL parser sees it. */
  function BrowserView(s: string): string {
    StripLeadingControls(RemoveTabNewline(s))
  }

  predicate IsAsciiAlpha(c: char) {
    'a' <= c <= 'z' || 'A' <= c <= 'Z'
  }

  predicate IsSchemeChar(c: char) {
    IsAsciiAlpha(c) || '0' <= c <= '9' || c == '+' || c == '-' || c == '.'
  }

  /** A run of scheme characters ended by `:`. */
  predicate SchemeRest(s: string) {
    s != [] && (s[0] == ':' || (IsSchemeChar(s[0]) && SchemeRest(s[1..])))
  }

  /** Section 3.1 of RFC 3986: `ALPHA *( ALPHA / DIGIT / "+" / "-" / "." ) ":"` at the start. */
  predicate StartsWithScheme(s: string) {
    s != [] && IsAsciiAlpha(s[0]) && SchemeRest(s[1..])
  }

  /** A scheme needs a colon. */
  lemma {:induction false} NoColonNoScheme(s: string)
    requires forall i :: 0 <= i < |s| ==> s[i] != ':'
    ensures !SchemeRest(s)
  {
    if s != [] {
      NoColonNoScheme(s[1..]);
    }
  }

  predicate IsSlash(c: char) {
    c == '/' || c == '\\'
  }

  /** Two leading slashes: a network-path reference, which names a host. */
  predicate IsNetworkPath(s: string) {
    |s| >= 2 && IsSlash(s[0]) && IsSlash(s[1])
  }

  /** Navigating to `s` from the login page can land on another origin. */
  predicate LeavesSite(s: string) {
    var v := BrowserView(s);
    StartsWithScheme(v) || IsNetworkPath(v)
  }

  /** The guard as written lets a protocol-relative target through, and the browser then leaves the site. */
  lemma ProtocolRelativeSlipsThrough()
    ensures SanitizeRedirect(Some("//evil.example")) == "//evil.example"
    ensures LeavesSite("//evil.example")
  {
    NotHttpUnlessH("//evil.example");
    ReadsAsItself("//evil.example");
  }

  /** The guard as its name promises: anything the browser would read as leaving the site also becomes `control.html`. */
  function SafeRedirect(target: Option<string>): (r: string)
    ensures r != [] && !HasHttpScheme(r) && !LeavesSite(r)
    ensures target.Some? && target.value != [] && !HasHttpScheme(target.value) && !LeavesSite(target.value) ==>
      r == target.value
  {
    DefaultIsRelative();
    DefaultStaysOnSite();
    if target.None? || target.value == [] || HasHttpScheme(target.value) || LeavesSite(target.value)
    then DefaultTarget else target.value
  }

  /** The corrected guard differs from the original only on targets that leave the site. */
  lemma SafeRedirectAgrees(target: Option<string>)
    ensures SafeRedirect(target) != SanitizeRedirect(target) ==>
      target.Some? && LeavesSite(target.value) && SanitizeRedirect(target) == target.value
  {
  }
}
