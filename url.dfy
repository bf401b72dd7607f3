/** Link text helpers: strip or add the `http(s)://` scheme and reduce a
    link to its host part. Strings are sequences of characters and every
    test is case-sensitive, as `startsWith` is. */
module Url {

  predicate StartsWith(s: string, prefix: string) {
    |prefix| <= |s| && s[..|prefix|] == prefix
  }

  /** A string that starts with prefix has prefix's characters at its front. */
  lemma StartsWithChar(s: string, prefix: string, i: nat)
    requires i < |prefix|
    ensures StartsWith(s, prefix) ==> i < |s| && s[i] == prefix[i] && prefix[i] in s
  {
    if StartsWith(s, prefix) {
      assert s[..|prefix|][i] == s[i];
    }
  }

  /** A string starts with every prefix of each of its prefixes. */
  lemma StartsWithTransitive(s: string, p: string, q: string)
    requires StartsWith(p, q)
    ensures StartsWith(s, p) ==> StartsWith(s, q)
  {
    if StartsWith(s, p) {
      assert s[..|q|] == s[..|p|][..|q|];
    }
  }

  /** No string starts with both "http" and "//": their first characters differ. */
  lemma HttpExcludesDoubleSlash(s: string)
    ensures !(StartsWith(s, "http") && StartsWith(s, "//"))
  {
    StartsWithChar(s, "http", 0);
    StartsWithChar(s, "//", 0);
  }

  /** Both scheme prefixes start with "http", and no string has both:
      their fifth characters differ. */
  lemma SchemePrefixes(s: string)
    ensures StartsWith(s, "https://") ==> StartsWith(s, "http")
    ensures StartsWith(s, "http://") ==> StartsWith(s, "http")
    ensures !(StartsWith(s, "https://") && StartsWith(s, "http://"))
  {
    assert "https://"[..4] == "http";
    assert "http://"[..4] == "http";
    StartsWithTransitive(s, "https://", "http");
    StartsWithTransitive(s, "http://", "http");
    StartsWithChar(s, "https://", 4);
    StartsWithChar(s, "http://", 4);
  }

  // ---------------------------------------------------------------------
  // removeProtocol

  /** Strips a leading "https://" or "http://" (the anchored pattern
      `^https?:\/\/`) from a string that starts with "http"; any other
      string comes back as it is. The branch for a leading "//" sits after
      the "http" test and is never taken. */
  function RemoveProtocol(url: string): (r: string)
    ensures |r| <= |url| && url[|url| - |r|..] == r
    ensures url[..|url| - |r|] in {"", "http://", "https://"}
  {
    if !StartsWith(url, "http") then url
    else if StartsWith(url, "//") then
      HttpExcludesDoubleSlash(url);
      assert false;
      url
    else if StartsWith(url, "https://") then url[8..]
    else if StartsWith(url, "http://") then url[7..]
    else url
  }

  /** What each kind of input becomes. */
  lemma RemoveProtocolCases(url: string)
    ensures !StartsWith(url, "http") ==> RemoveProtocol(url) == url
    ensures StartsWith(url, "https://") ==> RemoveProtocol(url) == url[8..]
    ensures StartsWith(url, "http://") ==> RemoveProtocol(url) == url[7..]
    ensures !StartsWith(url, "http://") && !StartsWith(url, "https://") ==> RemoveProtocol(url) == url
  {
    SchemePrefixes(url);
    HttpExcludesDoubleSlash(url);
  }

  /** A protocol-relative link ("//host/...") is returned unchanged: the
      "//" branch of the program is unreachable. */
  lemma RemoveProtocolKeepsProtocolRelative(url: string)
    requires StartsWith(url, "//")
    ensures RemoveProtocol(url) == url
  {
    HttpExcludesDoubleSlash(url);
  }

  // ---------------------------------------------------------------------
  // addProtocol

  /** Prefixes "https://" (or "https:" before a leading "//") unless the
      string already starts with "http". */
  function AddProtocol(url: string): (r: string)
    ensures StartsWith(r, "http")
    ensures |url| <= |r| && r[|r| - |url|..] == url
  {
    if StartsWith(url, "http") then url
    else if StartsWith(url, "//") then "https:" + url
    else "https://" + url
  }

  /** The three outcomes, by the shape of the input. */
  lemma AddProtocolCases(url: string)
    ensures StartsWith(url, "http") ==> AddProtocol(url) == url
    ensures StartsWith(url, "//") ==> AddProtocol(url) == "https:" + url
    ensures !StartsWith(url, "http") && !StartsWith(url, "//") ==> AddProtocol(url) == "https://" + url
  {
    HttpExcludesDoubleSlash(url);
  }

  lemma AddProtocolIdempotent(url: string)
    ensures AddProtocol(AddProtocol(url)) == AddProtocol(url)
  {
  }

  /** Adding then removing the scheme gives back a bare host-and-path. */
  lemma RemoveAfterAdd(url: string)
    requires !StartsWith(url, "http") && !StartsWith(url, "//")
    ensures RemoveProtocol(AddProtocol(url)) == url
  {
    var added := "https://" + url;
    assert added[..8] == "https://";
    assert added[8..] == url;
    RemoveProtocolCases(added);
    SchemePrefixes(added);
  }

  /** A protocol-relative link gets "https:" and then loses "https://". */
  lemma RemoveAfterAddProtocolRelative(url: string)
    requires StartsWith(url, "//")
    ensures RemoveProtocol(AddProtocol(url)) == url[2..]
  {
    HttpExcludesDoubleSlash(url);
    var added := "https:" + url;
    assert url == "//" + url[2..];
    assert added == "https://" + url[2..];
    assert added[..8] == "https://";
    assert added[8..] == url[2..];
    RemoveProtocolCases(added);
  }

  /** Removing then adding the scheme restores an https link whose rest
      does not itself look like a link. */
  lemma AddAfterRemoveHttps(url: string)
    requires StartsWith(url, "https://")
    requires !StartsWith(url[8..], "http") && !StartsWith(url[8..], "//")
    ensures AddProtocol(RemoveProtocol(url)) == url
  {
    RemoveProtocolCases(url);
    assert url == url[..8] + url[8..];
  }

  /** ... and upgrades a plain http link to https. */
  lemma AddAfterRemoveHttp(url: string)
    requires StartsWith(url, "http://")
    requires !StartsWith(url[7..], "http") && !StartsWith(url[7..], "//")
    ensures AddProtocol(RemoveProtocol(url)) == "https://" + url[7..]
  {
    RemoveProtocolCases(url);
  }

  // ---------------------------------------------------------------------
  // cleanUrl

  /** `s.split("/")[0]`: everything before the first '/', or all of s. */
  function FirstSegment(s: string): (r: string)
    ensures '/' !in r
    ensures StartsWith(s, r)
    ensures |r| < |s| ==> s[|r|] == '/'
    decreases |s|
  {
    if s == [] || s[0] == '/' then [] else [s[0]] + FirstSegment(s[1..])
  }

  /** A string without '/' is its own first segment. */
  lemma FirstSegmentOfSlashFree(s: string)
    requires '/' !in s
    ensures FirstSegment(s) == s
  {
    assert forall i :: 0 <= i < |s| ==> s[i] != '/';
  }

  /** The first segment ends at the first '/'. */
  lemma FirstSegmentUpTo(s: string, k: nat)
    requires k < |s| && s[k] == '/' && '/' !in s[..k]
    ensures FirstSegment(s) == s[..k]
  {
    assert forall i :: 0 <= i < k ==> s[i] != '/' by {
      forall i | 0 <= i < k ensures s[i] != '/' {
        assert s[..k][i] == s[i];
      }
    }
  }

  /** The host part of a link: the scheme removed, then everything from the
      first '/' on dropped. */
  function CleanUrl(url: string): (r: string)
    ensures '/' !in r
    ensures StartsWith(RemoveProtocol(url), r)
    ensures '/' !in RemoveProtocol(url) ==> r == RemoveProtocol(url)
  {
    var rest := RemoveProtocol(url);
    if '/' !in rest then FirstSegmentOfSlashFree(rest); FirstSegment(rest)
    else FirstSegment(rest)
  }

  /** Cleaning twice is cleaning once: a slash-free string has no scheme to strip. */
  lemma CleanUrlIdempotent(url: string)
    ensures CleanUrl(CleanUrl(url)) == CleanUrl(url)
  {
    var c := CleanUrl(url);
    StartsWithChar(c, "https://", 6);
    StartsWithChar(c, "http://", 5);
    RemoveProtocolCases(c);
    FirstSegmentOfSlashFree(c);
  }

  /** A protocol-relative link keeps its "//", so its host part is empty. */
  lemma CleanUrlOfProtocolRelative(url: string)
    requires StartsWith(url, "//")
    ensures CleanUrl(url) == ""
  {
    RemoveProtocolKeepsProtocolRelative(url);
    StartsWithChar(url, "//", 0);
  }

  lemma CleanUrlExample()
    ensures CleanUrl("https://example.com/a/b") == "example.com"
  {
    var url := "https://example.com/a/b";
    assert url[..8] == "https://";
    RemoveProtocolCases(url);
    var rest := "example.com/a/b";
    assert url[8..] == rest;
    assert rest[..11] == "example.com";
    FirstSegmentUpTo(rest, 11);
  }
}
