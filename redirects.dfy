/**
 * The three ways the login flow pulls its next target out of a response:
 * the `content` of a `<meta>` refresh tag, the `action` of the login form
 * turned into the Wicket AJAX behaviour endpoint, and the capture group of
 * the first `CDATA\[.(.*?)\]\]` match in the AJAX reply.
 *
 * Go slices and indexes panic on short input; each extractor returns None
 * exactly where the Go expression would panic.
 */
module Redirects {
  import opened Wrappers

  /** Number of characters (the `0;url=` refresh prefix) cut off a meta content. */
  const MetaPrefixLength: nat := 6

  /** `action[1:][:17]` keeps this many characters after the first one. */
  const ActionKeepLength: nat := 17

  const BehaviourSuffix: string := "IBehaviorListener.0-userIDPanel-usernameLogin-loginWithUserID"

  /**
   * `content[6:]`: the meta content without its refresh prefix. Go panics when
   * the content has fewer than 6 characters (a missing `<meta>` gives `""`).
   */
  function MetaTarget(content: string): (r: Option<string>)
    ensures r.Some? <==> |content| >= MetaPrefixLength
    ensures r.Some? ==> |r.value| == |content| - MetaPrefixLength
    ensures r.Some? ==> content == content[..MetaPrefixLength] + r.value
  {
    if |content| < MetaPrefixLength then None
    else Some(content[MetaPrefixLength..])
  }

  /**
   * `action[1:][:17] + BehaviourSuffix`: 17 characters of the form action,
   * skipping its first (the leading `.` or `/`), then the listener suffix.
   * Go panics unless the action has at least 18 characters.
   */
  function BehaviourEndpoint(action: string): (r: Option<string>)
    ensures r.Some? <==> |action| >= 1 + ActionKeepLength
    ensures r.Some? ==> |r.value| == ActionKeepLength + |BehaviourSuffix|
    ensures r.Some? ==> r.value[..ActionKeepLength] == action[1..1 + ActionKeepLength]
    ensures r.Some? ==> r.value[ActionKeepLength..] == BehaviourSuffix
  {
    if |action| < 1 then None
    else
      var rest := action[1..];
      if |rest| < ActionKeepLength then None
      else Some(rest[..ActionKeepLength] + BehaviourSuffix)
  }

  // ---- The pattern CDATA\[.(.*?)\]\] ----
  // `.` matches any character but a newline; `.*?` is lazy, so at a given
  // start the capture is the shortest newline-free run followed by `]]`;
  // the first match Go reports is the one with the leftmost start.

  /** Length of the literal `CDATA[` plus the one character `.` consumes. */
  const OpenLength: nat := 7

  /** `CDATA[` followed by one non-newline character starts at `i`. */
  predicate Opens(s: string, i: nat)
  {
    i + OpenLength <= |s| && s[i..i + 6] == "CDATA[" && s[i + 6] != '\n'
  }

  /** `]]` starts at `j`. */
  predicate Closes(s: string, j: nat)
  {
    j + 2 <= |s| && s[j] == ']' && s[j + 1] == ']'
  }

  /** No newline in `s[k..j]`. */
  predicate NewlineFree(s: string, k: nat, j: nat)
    requires k <= j <= |s|
  {
    forall m :: k <= m < j ==> s[m] != '\n'
  }

  /** Some match of the pattern starts at `i`. */
  ghost predicate MatchesAt(s: string, i: nat)
  {
    Opens(s, i) &&
    exists j :: i + OpenLength <= j && Closes(s, j) && NewlineFree(s, i + OpenLength, j)
  }

  /** The match at `i` is the lazy one, capturing `s[i + 7..j]`. */
  predicate LazyMatch(s: string, i: nat, j: nat)
  {
    Opens(s, i) && i + OpenLength <= j && Closes(s, j) && NewlineFree(s, i + OpenLength, j) &&
    forall m :: i + OpenLength <= m < j ==> !Closes(s, m)
  }

  /**
   * The lazy end of a capture that began at `k`, searching from `j` onward:
   * the first `]]` not preceded by a newline inside the capture.
   */
  function LazyClose(s: string, k: nat, j: nat): (r: Option<nat>)
    requires k <= j <= |s| && NewlineFree(s, k, j)
    requires forall m :: k <= m < j ==> !Closes(s, m)
    ensures r.Some? ==> j <= r.value && Closes(s, r.value) && NewlineFree(s, k, r.value)
    ensures r.Some? ==> forall m :: k <= m < r.value ==> !Closes(s, m)
    ensures r.None? ==> forall m :: k <= m <= |s| && Closes(s, m) ==> !NewlineFree(s, k, m)
    decreases |s| - j
  {
    if j + 2 > |s| then None
    else if Closes(s, j) then Some(j)
    else if s[j] == '\n' then None
    else LazyClose(s, k, j + 1)
  }

  /** The lazy match starting at `i`, if the pattern matches there. */
  function MatchAt(s: string, i: nat): (r: Option<nat>)
    ensures r.Some? ==> LazyMatch(s, i, r.value)
    ensures r.None? ==> !MatchesAt(s, i)
  {
    if Opens(s, i) then LazyClose(s, i + OpenLength, i + OpenLength) else None
  }

  /**
   * The leftmost match at or after `from`, as (start, end of capture).
   */
  function FirstMatch(s: string, from: nat): (r: Option<(nat, nat)>)
    ensures r.Some? ==> from <= r.value.0 && LazyMatch(s, r.value.0, r.value.1)
    ensures r.Some? ==> forall i :: from <= i < r.value.0 ==> !MatchesAt(s, i)
    ensures r.None? ==> forall i :: from <= i ==> !MatchesAt(s, i)
    decreases |s| - from
  {
    if from + OpenLength > |s| then None
    else
      match MatchAt(s, from)
      case Some(j) => Some((from, j))
      case None => FirstMatch(s, from + 1)
  }

  /**
   * `matches[0][1]`: the capture group of the first match in the body.
   * With no match, Go's `matches[0]` panics; here the result is None.
   */
  function CdataRedirect(body: string): (r: Option<string>)
    ensures r.None? <==> forall i :: !MatchesAt(body, i)
    ensures r.Some? ==> exists i: nat, j: nat ::
      && LazyMatch(body, i, j)
      && (forall i' :: 0 <= i' < i ==> !MatchesAt(body, i'))
      && r.value == body[i + OpenLength..j]
  {
    match FirstMatch(body, 0)
    case Some((i, j)) =>
      assert MatchesAt(body, i);
      Some(body[i + OpenLength..j])
    case None => None
  }

  /**
   * Any match that starts leftmost and ends lazily is the one reported: the
   * extraction is determined by the pattern alone.
   */
  lemma CdataRedirectIsLeftmostLazy(body: string, i: nat, j: nat)
    requires LazyMatch(body, i, j)
    requires forall i' :: 0 <= i' < i ==> !MatchesAt(body, i')
    ensures CdataRedirect(body) == Some(body[i + OpenLength..j])
  {
    assert MatchesAt(body, i);
    var r := FirstMatch(body, 0);
    assert MatchesAt(body, r.value.0);
  }

  /**
   * A body that opens with `CDATA[`, one more character and then a path free
   * of `]` and newlines, closed by `]]`, redirects to exactly that path,
   * whatever follows.
   */
  lemma CdataRedirectOfWrappedPath(c: char, path: string, rest: string)
    requires c != '\n'
    requires forall k :: 0 <= k < |path| ==> path[k] != ']' && path[k] != '\n'
    ensures CdataRedirect("CDATA[" + [c] + path + "]]" + rest) == Some(path)
  {
    var body := "CDATA[" + [c] + path + "]]" + rest;
    var j := OpenLength + |path|;
    assert body[..6] == "CDATA[";
    assert body[OpenLength..j] == path;
    assert forall m :: OpenLength <= m < j ==> body[m] == path[m - OpenLength];
    CdataRedirectIsLeftmostLazy(body, 0, j);
  }

  /** The redirect of a typical successful AJAX reply. */
  lemma CdataRedirectExample()
    ensures CdataRedirect("CDATA[.https://id.example/cb?code=123]]") == Some("https://id.example/cb?code=123")
  {
    var path := "https://id.example/cb?code=123";
    assert "CDATA[.https://id.example/cb?code=123]]" == "CDATA[" + ['.'] + path + "]]" + "";
    CdataRedirectOfWrappedPath('.', path, "");
  }

  /** The meta refresh of the first login page. */
  lemma MetaTargetExample()
    ensures MetaTarget("0;url=/step2") == Some("/step2")
  {
  }

  /** An action of 18 characters is the shortest that does not panic. */
  lemma BehaviourEndpointExample()
    ensures BehaviourEndpoint("/abc12345678901234567rest")
      == Some("abc12345678901234" + BehaviourSuffix)
    ensures BehaviourEndpoint("./abc1234567890123").Some?
    ensures BehaviourEndpoint("./abc123456789012").None?
  {
    var action := "/abc12345678901234567rest";
    assert action[1..][..ActionKeepLength] == "abc12345678901234";
  }
}
