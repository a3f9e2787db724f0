/**
 * RepoFromPath (pkg/utils/url.go): the first match of the unanchored pattern
 *   /v2/(\S+)/(?:manifests|blobs|tags|referrers)/
 * under Go's leftmost-first regexp semantics, and its capture group.
 */
module Url {
  import opened Wrappers

  /** `\s` of Go's RE2 syntax: tab, newline, form feed, carriage return and space. */
  predicate IsSpace(c: char) {
    c == '\t' || c == '\n' || c as int == 12 || c == '\r' || c == ' '
  }

  predicate NoSpace(s: string) {
    forall k :: 0 <= k < |s| ==> !IsSpace(s[k])
  }

  predicate HasPrefixAt(s: string, i: int, p: string) {
    0 <= i && i + |p| <= |s| && s[i..i + |p|] == p
  }

  /** One of the four endpoint segments starts at position j. */
  predicate MarkerAt(s: string, j: int) {
    || HasPrefixAt(s, j, "/manifests/")
    || HasPrefixAt(s, j, "/blobs/")
    || HasPrefixAt(s, j, "/tags/")
    || HasPrefixAt(s, j, "/referrers/")
  }

  /**
   * The pattern matches starting at i with its capture group s[i+4..j]:
   * "/v2/", then a non-empty run free of whitespace, then an endpoint segment.
   */
  predicate IsMatch(s: string, i: int, j: int) {
    HasPrefixAt(s, i, "/v2/") && i + 4 < j <= |s| && NoSpace(s[i + 4..j]) && MarkerAt(s, j)
  }

  /** No match starts before i (the leftmost rule). */
  ghost predicate NoMatchBefore(s: string, i: int) {
    forall a, b :: 0 <= a < i ==> !IsMatch(s, a, b)
  }

  /** Among the matches starting at i, the capture ends at j or earlier (the greedy rule). */
  ghost predicate Longest(s: string, i: int, j: int) {
    forall b :: IsMatch(s, i, b) ==> b <= j
  }

  /** End of the whitespace-free run that starts at k. */
  function RunEnd(s: string, k: nat): (e: nat)
    requires k <= |s|
    ensures k <= e <= |s|
    ensures forall m :: k <= m < e ==> !IsSpace(s[m])
    ensures e < |s| ==> IsSpace(s[e])
    decreases |s| - k
  {
    if k == |s| || IsSpace(s[k]) then k else RunEnd(s, k + 1)
  }

  /** The last position in (lo, j] where an endpoint segment starts. */
  function LastMarker(s: string, lo: nat, j: nat): (r: Option<nat>)
    ensures r.Some? ==> lo < r.value <= j && MarkerAt(s, r.value)
    ensures forall m :: (if r.Some? then r.value else lo) < m <= j ==> !MarkerAt(s, m)
    decreases j
  {
    if j <= lo then None
    else if MarkerAt(s, j) then Some(j)
    else LastMarker(s, lo, j - 1)
  }

  /** With "/v2/" at i, the capture can end exactly at the endpoint segments inside the run. */
  lemma MatchEnds(s: string, i: nat, b: int)
    requires HasPrefixAt(s, i, "/v2/")
    ensures IsMatch(s, i, b) <==> i + 4 < b <= RunEnd(s, i + 4) && MarkerAt(s, b)
  {
    if IsMatch(s, i, b) {
      forall m | i + 4 <= m < b ensures !IsSpace(s[m]) {
        assert s[m] == s[i + 4..b][m - (i + 4)];
      }
    }
  }

  /** The leftmost match starting at or after i, with its greedy capture end. */
  function FindFrom(s: string, i: nat): (r: Option<(nat, nat)>)
    requires i <= |s|
    ensures r.Some? ==> i <= r.value.0 && IsMatch(s, r.value.0, r.value.1) && Longest(s, r.value.0, r.value.1)
    ensures forall a, b :: i <= a && (r.None? || a < r.value.0) ==> !IsMatch(s, a, b)
    decreases |s| - i
  {
    if i + 4 > |s| then None
    else
      var found := if HasPrefixAt(s, i, "/v2/") then LastMarker(s, i + 4, RunEnd(s, i + 4)) else None;
      if found.Some? then
        MatchAt(s, i, found.value);
        Some((i, found.value))
      else
        NoMatchAt(s, i);
        FindFrom(s, i + 1)
  }

  lemma MatchAt(s: string, i: nat, j: nat)
    requires HasPrefixAt(s, i, "/v2/") && LastMarker(s, i + 4, RunEnd(s, i + 4)) == Some(j)
    ensures IsMatch(s, i, j) && Longest(s, i, j)
  {
    MatchEnds(s, i, j);
    forall b | IsMatch(s, i, b) ensures b <= j {
      MatchEnds(s, i, b);
    }
  }

  lemma NoMatchAt(s: string, i: nat)
    requires i + 4 <= |s|
    requires !HasPrefixAt(s, i, "/v2/") || LastMarker(s, i + 4, RunEnd(s, i + 4)).None?
    ensures forall b :: !IsMatch(s, i, b)
  {
    forall b | HasPrefixAt(s, i, "/v2/") ensures !IsMatch(s, i, b) {
      MatchEnds(s, i, b);
    }
  }

  /**
   * The repository named by a registry API path: the capture group of the
   * leftmost, greedy match, or "" when the pattern does not match.
   */
  function RepoFromPath(path: string): (repo: string)
    ensures repo != [] <==> exists i, j :: IsMatch(path, i, j)
    ensures repo != [] ==> exists i, j :: IsMatch(path, i, j) && NoMatchBefore(path, i) && Longest(path, i, j) && repo == path[i + 4..j]
    ensures NoSpace(repo)
  {
    match FindFrom(path, 0)
    case None => []
    case Some((i, j)) => path[i + 4..j]
  }

  /**
   * "/v2/" + repo + "/" + kind + "/" + tail yields repo when no endpoint
   * segment starts after the one following repo; endpoint segments inside
   * repo itself are allowed, since the capture is greedy.
   */
  lemma {:induction false} RepoFromPathRoundTrip(repo: string, kind: string, tail: string)
    requires kind == "manifests" || kind == "blobs" || kind == "tags" || kind == "referrers"
    requires repo != [] && NoSpace(repo)
    requires var p := "/v2/" + repo + "/" + kind + "/" + tail;
             forall j :: 4 + |repo| < j < |p| ==> !MarkerAt(p, j)
    ensures RepoFromPath("/v2/" + repo + "/" + kind + "/" + tail) == repo
  {
    var p := "/v2/" + repo + "/" + kind + "/" + tail;
    var n := 4 + |repo|;
    var marker := "/" + kind + "/";
    assert p == "/v2/" + repo + marker + tail;
    assert HasPrefixAt(p, 0, "/v2/") by { assert p[0..4] == "/v2/"; }
    assert NoSpace(p[4..n]) by { assert p[4..n] == repo; }
    assert HasPrefixAt(p, n, marker) by { assert p[n..n + |marker|] == marker; }
    assert MarkerAt(p, n) by {
      if kind == "manifests" {
        assert marker == "/manifests/";
      } else if kind == "blobs" {
        assert marker == "/blobs/";
      } else if kind == "tags" {
        assert marker == "/tags/";
      } else {
        assert marker == "/referrers/";
      }
    }
    assert IsMatch(p, 0, n);
    assert p[4..n] == repo;
    OnlyMatchIsCaptured(p, n);
  }

  /** A match at the start whose endpoint segment is the path's last one is what RepoFromPath returns. */
  lemma OnlyMatchIsCaptured(p: string, n: nat)
    requires IsMatch(p, 0, n)
    requires forall j :: n < j < |p| ==> !MarkerAt(p, j)
    ensures RepoFromPath(p) == p[4..n]
  {
    var r := RepoFromPath(p);
    var i, j :| IsMatch(p, i, j) && NoMatchBefore(p, i) && Longest(p, i, j) && r == p[i + 4..j];
    assert i == 0;
    assert n <= j;
    assert !HasPrefixAt(p, |p|, "/blobs/") && !HasPrefixAt(p, |p|, "/tags/");
    assert j == n;
  }

  /** An endpoint segment begins with '/' and has another '/' at least five characters on. */
  lemma MarkerSlashes(p: string, j: int) returns (k: nat)
    requires MarkerAt(p, j)
    ensures 5 <= k && 0 <= j && j + k < |p| && p[j] == '/' && p[j + k] == '/'
  {
    var m := if HasPrefixAt(p, j, "/manifests/") then "/manifests/"
      else if HasPrefixAt(p, j, "/blobs/") then "/blobs/"
      else if HasPrefixAt(p, j, "/tags/") then "/tags/"
      else "/referrers/";
    assert HasPrefixAt(p, j, m);
    k := |m| - 1;
    assert p[j..j + |m|][0] == '/' && p[j..j + |m|][k] == '/';
  }

  /** Past "/v2/", a path built from slash-free repo and tail has '/' only around the endpoint name. */
  lemma SlashesIn(repo: string, kind: string, tail: string, j: int)
    requires '/' !in repo && '/' !in kind && '/' !in tail
    requires var p := "/v2/" + repo + "/" + kind + "/" + tail; 4 <= j < |p| && p[j] == '/'
    ensures j == 4 + |repo| || j == 5 + |repo| + |kind|
  {
    var p := "/v2/" + repo + "/" + kind + "/" + tail;
    var n := 4 + |repo|;
    assert forall i :: 0 <= i < |repo| ==> p[4 + i] == repo[i];
    assert forall i :: 0 <= i < |kind| ==> p[n + 1 + i] == kind[i];
    assert forall i :: 0 <= i < |tail| ==> p[n + 2 + |kind| + i] == tail[i];
  }

  /** A repository and a tail without '/' around one of the four endpoint names. */
  lemma {:induction false} RepoFromPathSlashFree(repo: string, kind: string, tail: string)
    requires kind == "manifests" || kind == "blobs" || kind == "tags" || kind == "referrers"
    requires repo != [] && NoSpace(repo) && '/' !in repo && '/' !in tail
    ensures RepoFromPath("/v2/" + repo + "/" + kind + "/" + tail) == repo
  {
    var p := "/v2/" + repo + "/" + kind + "/" + tail;
    var n := 4 + |repo|;
    assert '/' !in kind;
    forall j | 4 < j < |p| && j != n ensures !MarkerAt(p, j) {
      if MarkerAt(p, j) {
        var k := MarkerSlashes(p, j);
        SlashesIn(repo, kind, tail, j);
        SlashesIn(repo, kind, tail, j + k);
      }
    }
    RepoFromPathRoundTrip(repo, kind, tail);
  }

  /** pkg/utils/url_test.go: "testrepo" followed by each endpoint and a tail without '/'. */
  lemma RepoFromPathTestRepo(kind: string, tail: string)
    requires kind == "manifests" || kind == "blobs" || kind == "tags" || kind == "referrers"
    requires '/' !in tail
    ensures RepoFromPath("/v2/testrepo/" + kind + "/" + tail) == "testrepo"
  {
    var repo := "testrepo";
    assert "/v2/" + repo + "/" + kind + "/" + tail == "/v2/testrepo/" + kind + "/" + tail;
    assert NoSpace(repo) by {
      forall k | 0 <= k < |repo| ensures !IsSpace(repo[k]) {
      }
    }
    assert '/' !in repo;
    RepoFromPathSlashFree(repo, kind, tail);
  }

  /** The registry root "/v2/" names no repository. */
  lemma RootHasNoRepo()
    ensures RepoFromPath("/v2/") == ""
  {
  }
}
