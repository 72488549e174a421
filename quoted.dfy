/**
 * The service-name extraction of the trace tool: `re.search('"(.+)"', params)`
 * followed by `.group(1)`. The search takes the leftmost start at which the
 * pattern can match; there the greedy `.+` (any characters but a newline)
 * backtracks to the last quote it can reach.
 */
module Quoted {
  import opened Basics

  /** `.` without DOTALL: s[lo..hi) holds no newline. */
  predicate NoNewline(s: string, lo: nat, hi: nat)
    requires lo <= hi <= |s|
  {
    forall k :: lo <= k < hi ==> s[k] != '\n'
  }

  /** `"(.+)"` matches s[i..j+1]: quotes at i and j, at least one character between, no newline. */
  predicate IsMatch(s: string, i: nat, j: nat)
  {
    i + 2 <= j < |s| && s[i] == '"' && s[j] == '"' && NoNewline(s, i + 1, j)
  }

  /** The match `re.search` reports: the leftmost start, and there the longest match. */
  ghost predicate IsSearchResult(s: string, i: nat, j: nat)
  {
    && IsMatch(s, i, j)
    && (forall i': nat, j': nat :: i' < i ==> !IsMatch(s, i', j'))
    && (forall j': nat :: IsMatch(s, i, j') ==> j' <= j)
  }

  /** How far `.+` can reach from k: the first newline at or after k, or the end. */
  function LineEnd(s: string, k: nat): (e: nat)
    requires k <= |s|
    ensures k <= e <= |s| && NoNewline(s, k, e) && (e < |s| ==> s[e] == '\n')
    decreases |s| - k
  {
    if k == |s| || s[k] == '\n' then k else LineEnd(s, k + 1)
  }

  /** Backtracking from the right: the last quote in s[lo..hi). */
  function LastQuote(s: string, lo: nat, hi: nat): (r: Option<nat>)
    requires lo <= hi <= |s|
    ensures r.Some? ==> lo <= r.value < hi && s[r.value] == '"'
    ensures r.Some? ==> forall k :: r.value < k < hi ==> s[k] != '"'
    ensures r.None? ==> forall k :: lo <= k < hi ==> s[k] != '"'
    decreases hi - lo
  {
    if hi == lo then None
    else if s[hi - 1] == '"' then Some(hi - 1)
    else LastQuote(s, lo, hi - 1)
  }

  /** The end of the longest match starting at i, if the pattern matches there at all. */
  function MatchAt(s: string, i: nat): (r: Option<nat>)
    requires i < |s|
    ensures r.Some? ==> IsMatch(s, i, r.value) && forall j: nat :: IsMatch(s, i, j) ==> j <= r.value
    ensures r.None? ==> forall j: nat :: !IsMatch(s, i, j)
  {
    var e := LineEnd(s, i + 1);
    if s[i] != '"' || e < i + 2 then None else LastQuote(s, i + 2, e)
  }

  /** `re.search` from position `from` on. */
  function Search(s: string, from: nat): (r: Option<(nat, nat)>)
    requires from <= |s|
    ensures r.Some? ==> from <= r.value.0 && IsMatch(s, r.value.0, r.value.1)
    ensures r.Some? ==> forall i: nat, j: nat :: from <= i < r.value.0 ==> !IsMatch(s, i, j)
    ensures r.Some? ==> forall j: nat :: IsMatch(s, r.value.0, j) ==> j <= r.value.1
    ensures r.None? ==> forall i: nat, j: nat :: from <= i ==> !IsMatch(s, i, j)
    decreases |s| - from
  {
    if from == |s| then None
    else match MatchAt(s, from)
      case Some(j) => Some((from, j))
      case None => Search(s, from + 1)
  }

  /**
   * `re_service_name.search(params).group(1)`: the captured text, or None
   * where Python would call `.group` on `None`.
   */
  function ServiceName(params: string): (r: Option<string>)
    ensures r.None? <==> forall i: nat, j: nat :: !IsMatch(params, i, j)
    ensures r.Some? ==> exists i: nat, j: nat :: IsSearchResult(params, i, j) && r.value == params[i + 1..j]
  {
    match Search(params, 0)
    case None => None
    case Some((i, j)) =>
      assert IsSearchResult(params, i, j);
      Some(params[i + 1..j])
  }

  /**
   * On a line without newlines the name is the text strictly between the
   * first and the last quote, and there is one exactly when the last quote
   * is at least two positions after the first.
   */
  lemma NameBetweenFirstAndLastQuote(s: string, first: nat, last: nat)
    requires NoNewline(s, 0, |s|)
    requires first <= last < |s| && s[first] == '"' && s[last] == '"'
    requires forall k :: 0 <= k < first ==> s[k] != '"'
    requires forall k :: last < k < |s| ==> s[k] != '"'
    ensures ServiceName(s) == if first + 2 <= last then Some(s[first + 1..last]) else None
  {
    if first + 2 <= last {
      assert IsMatch(s, first, last);
      var r := ServiceName(s);
      var i: nat, j: nat :| IsSearchResult(s, i, j) && r.value == s[i + 1..j];
      assert i == first;
      assert j == last;
    }
  }

  /** Parameters without any quote give no name. */
  lemma NoQuoteNoName(s: string)
    requires forall k :: 0 <= k < |s| ==> s[k] != '"'
    ensures ServiceName(s) == None
  {
  }
}
