/**
 * The persistence key of the current conversation, built from the page
 * location (content_script.js, getConversationKey).
 *
 * The source matches the pathname against the regular expression
 * `\/c\/([^\/]+)`: the leftmost place where "/c/" is followed by at least
 * one character other than '/'. The captured group is the longest run of
 * non-'/' characters that follows. Without such a place the whole pathname
 * is the identifier.
 */
module ConversationKey {
  import opened Options

  /** Every stroke-collection key starts with this tag. */
  const KeyPrefix: string := "cgpt_doodle:"

  /** The regular expression matches at index `i` of `path`. */
  predicate MatchesAt(path: string, i: nat) {
    i + 3 < |path| && path[i] == '/' && path[i + 1] == 'c' && path[i + 2] == '/' && path[i + 3] != '/'
  }

  /** The path names a conversation: the regular expression matches somewhere. */
  ghost predicate HasConversation(path: string) {
    exists i: nat :: MatchesAt(path, i)
  }

  /** The leftmost match at or after `from`, as a regular-expression search finds it. */
  function FirstMatch(path: string, from: nat): (r: Option<nat>)
    requires from <= |path|
    ensures r.Some? ==> from <= r.value && MatchesAt(path, r.value)
    ensures r.Some? ==> forall j :: from <= j < r.value ==> !MatchesAt(path, j)
    ensures r.None? ==> forall j: nat :: from <= j ==> !MatchesAt(path, j)
    decreases |path| - from
  {
    if from == |path| then None
    else if MatchesAt(path, from) then Some(from)
    else FirstMatch(path, from + 1)
  }

  /**
   * The first occurrence of `c` at or after `start`, or the end of `s`.
   * With `c` = '/' this is where the greedy `[^\/]+` starting at `start` stops.
   */
  function NextIndexOf(s: string, c: char, start: nat): (e: nat)
    requires start <= |s|
    ensures start <= e <= |s|
    ensures forall k :: start <= k < e ==> s[k] != c
    ensures e == |s| || s[e] == c
    decreases |s| - start
  {
    if start == |s| || s[start] == c then start else NextIndexOf(s, c, start + 1)
  }

  /** The identifier part of the key: the captured conversation id, or the whole path. */
  function ConversationId(path: string): (id: string)
    ensures HasConversation(path) ==> 0 < |id| && '/' !in id
    ensures !HasConversation(path) ==> id == path
  {
    match FirstMatch(path, 0)
    case Some(i) => path[i + 3 .. NextIndexOf(path, '/', i + 3)]
    case None => path
  }

  /** getConversationKey: "cgpt_doodle:" + hostname + ":" + id. */
  function Key(host: string, path: string): (k: string)
    ensures KeyPrefix <= k
  {
    KeyPrefix + host + ":" + ConversationId(path)
  }

  /**
   * A path holding a conversation: the key carries the longest run of
   * non-'/' characters that follows the leftmost match.
   */
  lemma KeyOfConversation(host: string, path: string, i: nat, e: nat)
    requires MatchesAt(path, i)
    requires forall j :: 0 <= j < i ==> !MatchesAt(path, j)
    requires i + 3 < e <= |path|
    requires forall k :: i + 3 <= k < e ==> path[k] != '/'
    requires e == |path| || path[e] == '/'
    ensures Key(host, path) == KeyPrefix + host + ":" + path[i + 3 .. e]
  {
    var r := FirstMatch(path, 0);
    assert r == Some(i);
    var f := NextIndexOf(path, '/', i + 3);
    assert f == e;
  }

  /** A path without a conversation: the key carries the whole path. */
  lemma KeyOfPlainPath(host: string, path: string)
    requires forall j: nat :: !MatchesAt(path, j)
    ensures Key(host, path) == KeyPrefix + host + ":" + path
  {
    assert !HasConversation(path);
  }

  /**
   * What `location.hostname` can be: a name or an IPv4 address, which holds
   * no ':' and does not start with '[', or a bracketed IPv6 literal such as
   * "[::1]", whose only ']' is its last character.
   */
  predicate HostName(h: string) {
    (':' !in h && (|h| == 0 || h[0] != '['))
    || (2 <= |h| && h[0] == '[' && h[|h| - 1] == ']' && ']' !in h[..|h| - 1])
  }

  /**
   * Reads a key back into its host and identifier: after the tag, the host
   * runs up to and including the first ']' when it starts with '[', and up
   * to the first ':' otherwise; the identifier is everything after the ':'
   * that follows the host.
   */
  function ParseKey(k: string): (r: Option<(string, string)>)
    ensures r.Some? ==> k == KeyPrefix + r.value.0 + ":" + r.value.1
  {
    var n := |KeyPrefix|;
    if !(KeyPrefix <= k) then None
    else if n < |k| && k[n] == '[' then
      var e := NextIndexOf(k, ']', n);
      if e + 1 < |k| && k[e + 1] == ':' then Some((k[n .. e + 1], k[e + 2 ..])) else None
    else
      var e := NextIndexOf(k, ':', n);
      if e < |k| then Some((k[n .. e], k[e + 1 ..])) else None
  }

  /** Every key built from a host name reads back as that host and that identifier. */
  lemma ParseKeyOfKey(h: string, id: string)
    requires HostName(h)
    ensures ParseKey(KeyPrefix + h + ":" + id) == Some((h, id))
  {
    var k := KeyPrefix + h + ":" + id;
    var n := |KeyPrefix|;
    assert k[..n] == KeyPrefix;
    assert k[n + |h|] == ':';
    assert forall j :: 0 <= j < |h| ==> k[n + j] == h[j];
    if 0 < |h| && h[0] == '[' {
      assert k[n] == '[';
      assert forall j :: n <= j < n + |h| - 1 ==> k[j] == h[..|h| - 1][j - n];
      var e := NextIndexOf(k, ']', n);
      assert k[n + |h| - 1] == ']';
      assert e == n + |h| - 1;
      assert k[n .. e + 1] == h;
      assert k[e + 2 ..] == id;
    } else {
      assert k[n] != '[';
      var e := NextIndexOf(k, ':', n);
      assert e == n + |h|;
      assert k[n .. e] == h;
      assert k[e + 1 ..] == id;
    }
  }

  /**
   * The key identifies the page: host names and pathnames (which always
   * start with '/') that give the same key name the same host and the same
   * conversation, and a conversation key never equals the key of a path
   * without one.
   */
  lemma {:induction false} KeyIdentifiesConversation(h1: string, p1: string, h2: string, p2: string)
    requires HostName(h1) && HostName(h2)
    requires 0 < |p1| && p1[0] == '/' && 0 < |p2| && p2[0] == '/'
    requires Key(h1, p1) == Key(h2, p2)
    ensures h1 == h2
    ensures HasConversation(p1) == HasConversation(p2)
    ensures ConversationId(p1) == ConversationId(p2)
  {
    ParseKeyOfKey(h1, ConversationId(p1));
    ParseKeyOfKey(h2, ConversationId(p2));
    var id := ConversationId(p1);
  }
}
