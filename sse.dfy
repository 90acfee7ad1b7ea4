/**
 * The route layout of the SSE server: the URI prefix is normalised to start
 * with `/` and end without one (or to be empty), and the three endpoint paths
 * are built on it.
 */
module Sse {
  import opened Common

  /** No `/` at the end (vacuously true of the empty string). */
  predicate NoTrailingSlash(s: string) {
    s == [] || s[|s| - 1] != '/'
  }

  /** A prefix the server can put in front of its routes as it is. */
  predicate IsNormalPrefix(p: string) {
    p == [] || (p[0] == '/' && NoTrailingSlash(p))
  }

  /** `s.replace(/\/+$/, '')`: `s` without its final run of slashes. */
  function StripTrailingSlashes(s: string): (r: string)
    ensures StartsWith(s, r) && NoTrailingSlash(r)
    ensures forall i :: |r| <= i < |s| ==> s[i] == '/'
  {
    if s != [] && s[|s| - 1] == '/' then StripTrailingSlashes(s[..|s| - 1]) else s
  }

  /** Stripping leaves a string that already ends without a slash unchanged. */
  lemma StripKeepsUnslashed(s: string)
    requires NoTrailingSlash(s)
    ensures StripTrailingSlashes(s) == s
  {
  }

  /** The `normalizedPrefix` of `startSSEServer`: empty for an empty prefix,
      otherwise the prefix with one `/` put in front when it has none, and with
      its trailing slashes removed. */
  function NormalizePrefix(uriPrefix: string): (r: string)
    ensures IsNormalPrefix(r)
    ensures uriPrefix == [] ==> r == []
    ensures uriPrefix != [] ==>
      var slashed := if uriPrefix[0] == '/' then uriPrefix else "/" + uriPrefix;
      StartsWith(slashed, r) && forall i :: |r| <= i < |slashed| ==> slashed[i] == '/'
  {
    if uriPrefix == "" then ""
    else
      var slashed := if StartsWith(uriPrefix, "/") then uriPrefix else "/" + uriPrefix;
      StripTrailingSlashes(slashed)
  }

  /** A prefix that is already normal comes out unchanged; hence normalising twice
      is the same as normalising once. */
  lemma NormalizeFixesNormal(p: string)
    requires IsNormalPrefix(p)
    ensures NormalizePrefix(p) == p
  {
    if p != [] {
      assert StartsWith(p, "/");
      StripKeepsUnslashed(p);
    }
  }

  /** Normalising is idempotent. */
  lemma NormalizeIdempotent(p: string)
    ensures NormalizePrefix(NormalizePrefix(p)) == NormalizePrefix(p)
  {
    NormalizeFixesNormal(NormalizePrefix(p));
  }

  /** A prefix without a leading slash gets exactly one: `api/` becomes `/api`,
      and a prefix of slashes only becomes empty: `/` and `///` give "". */
  lemma NormalizeExamples()
    ensures NormalizePrefix("api/") == "/api"
    ensures NormalizePrefix("/") == ""
    ensures NormalizePrefix("///") == ""
  {
    assert !StartsWith("api/", "/");
    assert "/" + "api/" == "/api/";
    assert "/api/"[..4] == "/api";
    assert StripTrailingSlashes("/api/") == StripTrailingSlashes("/api");
    StripKeepsUnslashed("/api");
    assert "///"[..2] == "//" && "//"[..1] == "/" && "/"[..0] == "";
  }

  /** A string of slashes only, of any length, is stripped to nothing, so as a
      prefix it normalises to the empty prefix. */
  lemma {:induction false} OnlySlashesVanish(s: string)
    requires forall i :: 0 <= i < |s| ==> s[i] == '/'
    ensures StripTrailingSlashes(s) == ""
    ensures NormalizePrefix(s) == ""
  {
    if s != [] {
      OnlySlashesVanish(s[..|s| - 1]);
      assert StartsWith(s, "/");
    }
  }

  /** The three routes of the SSE server. */
  datatype Endpoints = Endpoints(ssePath: string, messagePath: string, infoPath: string)

  /** The endpoint paths for a raw URI prefix: the normalised prefix followed by
      `/sse`, `/message` and `/info`. */
  function EndpointPaths(uriPrefix: string): (e: Endpoints)
    ensures var p := NormalizePrefix(uriPrefix);
      && e.ssePath == p + "/sse" && e.messagePath == p + "/message" && e.infoPath == p + "/info"
    ensures e.ssePath != e.messagePath && e.ssePath != e.infoPath && e.messagePath != e.infoPath
  {
    var p := NormalizePrefix(uriPrefix);
    Endpoints(p + "/sse", p + "/message", p + "/info")
  }

  /** Every route is an absolute path, and the prefix and the route name meet in a
      single slash. */
  lemma EndpointsWellFormed(uriPrefix: string)
    ensures var e := EndpointPaths(uriPrefix);
      var p := NormalizePrefix(uriPrefix);
      && e.ssePath[0] == '/' && e.messagePath[0] == '/' && e.infoPath[0] == '/'
      && (|p| > 0 ==> e.ssePath[|p| - 1] != '/' && e.messagePath[|p| - 1] != '/' && e.infoPath[|p| - 1] != '/')
      && e.ssePath[|p|] == '/' && e.messagePath[|p|] == '/' && e.infoPath[|p|] == '/'
  {
  }
}
