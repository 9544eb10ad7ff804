/**
 * How the control panel turns the address an operator types into the list of stream URLs it
 * will try: `normalizeBaseUrl` and `buildStreamCandidates` of js/control.js.
 */
module StreamAddress {
  import opened Util
  import opened JsText

  /** `url.replace(/\/+$/, '')`: every trailing '/' removed. */
  function StripTrailingSlashes(s: string): string {
    if s != [] && s[|s| - 1] == '/' then StripTrailingSlashes(s[..|s| - 1]) else s
  }

  /** Stripping keeps a prefix that does not end in '/', and removes nothing but slashes. */
  lemma {:induction false} StripSpec(s: string)
    ensures var r := StripTrailingSlashes(s);
      |r| <= |s| && r == s[..|r|]
      && (r == [] || r[|r| - 1] != '/')
      && forall i :: |r| <= i < |s| ==> s[i] == '/'
  {
    if s != [] && s[|s| - 1] == '/' {
      StripSpec(s[..|s| - 1]);
    }
  }

  /** Stripping keeps a prefix that already ends in a character other than '/'. */
  lemma {:induction false} StripKeepsPrefix(p: string, t: string)
    requires p != [] && p[|p| - 1] != '/'
    ensures |StripTrailingSlashes(p + t)| >= |p|
    decreases |t|
  {
    if t == [] {
      assert p + t == p;
    } else if t[|t| - 1] == '/' {
      assert (p + t)[..|p + t| - 1] == p + t[..|t| - 1];
      StripKeepsPrefix(p, t[..|t| - 1]);
    }
  }

  /** `normalizeBaseUrl`: trim, add `http://` when no HTTP(S) scheme is present, drop trailing slashes. */
  function NormalizeBaseUrl(raw: string): (r: string)
  {
    var url := Trim(raw);
    if url == [] then []
    else StripTrailingSlashes(if HasHttpScheme(url) then url else "http://" + url)
  }

  /** The result is empty exactly when the trimmed input is empty, and never ends in '/'. */
  lemma NormalizeEmptyIff(raw: string)
    ensures NormalizeBaseUrl(raw) == [] <==> Trim(raw) == []
    ensures NormalizeBaseUrl(raw) == [] || NormalizeBaseUrl(raw)[|NormalizeBaseUrl(raw)| - 1] != '/'
  {
    var url := Trim(raw);
    if url != [] {
      var u := if HasHttpScheme(url) then url else "http://" + url;
      StripSpec(u);
      if HasHttpScheme(url) {
        SchemeStartsWithH(url);
        StripKeepsPrefix(url[..1], url[1..]);
        assert url[..1] + url[1..] == url;
      } else {
        StripKeepsPrefix("http:", "//" + url);
        assert "http:" + ("//" + url) == "http://" + url;
      }
    }
  }

  /** Without a scheme in the trimmed input, the result is `http://` followed by that input, minus trailing slashes. */
  lemma NormalizeAddsScheme(raw: string)
    requires Trim(raw) != [] && !HasHttpScheme(Trim(raw))
    ensures var r := NormalizeBaseUrl(raw);
      |r| <= |"http://" + Trim(raw)| && r == ("http://" + Trim(raw))[..|r|]
      && forall i :: |r| <= i < |"http://" + Trim(raw)| ==> ("http://" + Trim(raw))[i] == '/'
  {
    StripSpec("http://" + Trim(raw));
  }

  /** With a scheme already present, in any case, the result is the trimmed input minus trailing slashes. */
  lemma NormalizeKeepsScheme(raw: string)
    requires HasHttpScheme(Trim(raw))
    ensures var r := NormalizeBaseUrl(raw);
      |r| <= |Trim(raw)| && r == Trim(raw)[..|r|]
      && forall i :: |r| <= i < |Trim(raw)| ==> Trim(raw)[i] == '/'
  {
    StripSpec(Trim(raw));
  }

  /** An input without a scheme that holds anything besides slashes normalises to an `http://` address. */
  lemma NormalizeIsSchemed(raw: string, i: nat)
    requires !HasHttpScheme(Trim(raw))
    requires i < |Trim(raw)| && Trim(raw)[i] != '/'
    ensures HasHttpScheme(NormalizeBaseUrl(raw))
  {
    var u := "http://" + Trim(raw);
    var r := StripTrailingSlashes(u);
    StripSpec(u);
    assert u[7 + i] == Trim(raw)[i];
    assert |r| > 7 + i;
    assert r[..7] == u[..7] == "http://";
    assert Lower("http://") == "http://";
  }

  /** An address that already has a scheme and no trailing slash is returned as it was trimmed. */
  lemma NormalizeKeepsSchemedAddress(raw: string)
    requires HasHttpScheme(Trim(raw)) && Trim(raw)[|Trim(raw)| - 1] != '/'
    ensures NormalizeBaseUrl(raw) == Trim(raw)
  {
  }

  /** A bare "/" normalises to "http:", an address without any scheme. */
  lemma NormalizeLosesScheme()
    ensures NormalizeBaseUrl("/") == "http:"
    ensures !HasHttpScheme(NormalizeBaseUrl("/"))
  {
    assert Trim("/") == "/";
    assert !HasHttpScheme("/");
    assert "http://" + "/" == "http:///";
    assert "http:///"[..7] == "http://";
    assert StripTrailingSlashes("http:///") == "http:";
  }

  /** The fields of a parsed `URL` that the candidate builder looks at; `port` is "" for the scheme's default. */
  datatype UrlParts = UrlParts(pathname: string, port: string)

  /** `u.pathname && u.pathname !== '/'`. */
  predicate HasCustomPath(u: UrlParts) {
    u.pathname != [] && u.pathname != "/"
  }

  /** `[...new Set(xs)]`: the first occurrence of each element, in order. */
  function Dedup(xs: seq<string>): (r: seq<string>)
    ensures NoDuplicates(r)
    ensures |r| <= |xs|
    ensures forall i :: 0 <= i < |r| ==> r[i] in xs
  {
    if xs == [] then []
    else
      var d := Dedup(xs[..|xs| - 1]);
      if xs[|xs| - 1] in d then d else d + [xs[|xs| - 1]]
  }

  /** Nothing is lost: every element of the input survives, and a duplicate-free input is returned unchanged. */
  lemma {:induction false} DedupSpec(xs: seq<string>)
    ensures forall x :: x in xs ==> x in Dedup(xs)
    ensures NoDuplicates(xs) ==> Dedup(xs) == xs
  {
    if xs != [] {
      var init := xs[..|xs| - 1];
      DedupSpec(init);
      assert forall x :: x in xs ==> x in init || x == xs[|xs| - 1];
      if NoDuplicates(xs) {
        assert xs[|xs| - 1] !in init;
        assert xs == init + [xs[|xs| - 1]];
      }
    }
  }

  /** The endpoints tried for a base without a path, before duplicates are dropped. */
  function RootCandidates(base: string, u: UrlParts): seq<string> {
    [base + "/stream"] + (if u.port == [] then [base + ":81/stream"] else []) + [base]
  }

  /**
   * `buildStreamCandidates`: `parse` stands for `new URL(...)`, `None` for the exception it throws.
   */
  function BuildStreamCandidates(normalized: string, parse: string -> Option<UrlParts>): (r: seq<string>)
    ensures NoDuplicates(r) && |r| <= 3
  {
    match parse(normalized)
    case None => []
    case Some(u) =>
      if HasCustomPath(u) then Dedup([normalized])
      else
        var raw := RootCandidates(normalized, u);
        Dedup(raw)
  }

  /** The suffixes never coincide, so the root candidates are already distinct. */
  lemma RootCandidatesDistinct(base: string, u: UrlParts)
    ensures NoDuplicates(RootCandidates(base, u))
  {
    var a, b := base + "/stream", base + ":81/stream";
    assert a != b by { assert a[|base|] == '/' && b[|base|] == ':'; }
    assert |a| != |base| && |b| != |base|;
  }

  /** A parse failure gives no candidates. */
  lemma CandidatesOnParseFailure(normalized: string, parse: string -> Option<UrlParts>)
    requires parse(normalized).None?
    ensures BuildStreamCandidates(normalized, parse) == []
  {
  }

  /** A path other than the root means the address is used exactly as given. */
  lemma CandidatesForCustomPath(normalized: string, parse: string -> Option<UrlParts>)
    requires parse(normalized).Some? && HasCustomPath(parse(normalized).value)
    ensures BuildStreamCandidates(normalized, parse) == [normalized]
  {
  }

  /** Without a path: `/stream`, then `:81/stream` when no port is given, then the bare base, in that order. */
  lemma CandidatesForRoot(normalized: string, parse: string -> Option<UrlParts>)
    requires parse(normalized).Some? && !HasCustomPath(parse(normalized).value)
    ensures var r := BuildStreamCandidates(normalized, parse);
      if parse(normalized).value.port == [] then
        r == [normalized + "/stream", normalized + ":81/stream", normalized]
      else
        r == [normalized + "/stream", normalized]
  {
    RootCandidatesDistinct(normalized, parse(normalized).value);
    DedupSpec(RootCandidates(normalized, parse(normalized).value));
  }

  /** The bare base is always the last resort of a root address, so the list is never empty after a successful parse. */
  lemma CandidatesEndWithBase(normalized: string, parse: string -> Option<UrlParts>)
    requires parse(normalized).Some?
    ensures var r := BuildStreamCandidates(normalized, parse);
      r != [] && r[|r| - 1] == normalized
  {
    if !HasCustomPath(parse(normalized).value) {
      CandidatesForRoot(normalized, parse);
    }
  }
}
