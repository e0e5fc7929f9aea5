/** The URL an accepted request is forwarded to: the fixed upstream origin, the inbound
    path, and the inbound raw query after a `?` when there is one. */
module Target {
  import opened Text

  /** The single upstream origin (`bankDomain`). */
  const BankDomain := "https://sep.shaparak.ir"

  /** The target URL for an inbound path and raw query. */
  function TargetUrl(path: string, rawQuery: string): string {
    if rawQuery == "" then BankDomain + path else BankDomain + path + "?" + rawQuery
  }

  /** Builds the target URL step by step: origin plus path, then `?` and the raw query
      appended only when the query is non-empty. */
  method BuildTargetUrl(path: string, rawQuery: string) returns (url: string)
    ensures url == TargetUrl(path, rawQuery)
  {
    url := BankDomain + path;
    if rawQuery != "" {
      url := url + "?" + rawQuery;
    }
  }

  /** The index of the first `c` in `s`, or `|s|` when there is none. */
  function IndexOf(s: string, c: char): (i: nat)
    ensures i <= |s|
    ensures forall k :: 0 <= k < i ==> s[k] != c
    ensures i < |s| ==> s[i] == c
  {
    if s == [] then 0 else if s[0] == c then 0 else 1 + IndexOf(s[1..], c)
  }

  /** Reading a URL on the upstream origin back into its path and raw query. */
  function SplitTarget(url: string): (string, string)
    requires HasPrefix(url, BankDomain)
  {
    var rest := url[|BankDomain|..];
    var i := IndexOf(rest, '?');
    if i == |rest| then (rest, "") else (rest[..i], rest[i + 1..])
  }

  /** The URL always starts with the origin followed by the path; a `?` follows it exactly
      when the query is non-empty, and then the query follows to the end. */
  lemma TargetUrlShape(path: string, rawQuery: string)
    ensures HasPrefix(TargetUrl(path, rawQuery), BankDomain + path)
    ensures rawQuery == "" <==> TargetUrl(path, rawQuery) == BankDomain + path
    ensures rawQuery != "" ==> TargetUrl(path, rawQuery)[|BankDomain + path|..] == "?" + rawQuery
  {
  }

  /** A path without `?` and a query can be read back from the URL: building and
      splitting are inverse. */
  lemma SplitTargetUrl(path: string, rawQuery: string)
    requires '?' !in path
    ensures HasPrefix(TargetUrl(path, rawQuery), BankDomain)
    ensures SplitTarget(TargetUrl(path, rawQuery)) == (path, rawQuery)
  {
    var url := TargetUrl(path, rawQuery);
    var rest := url[|BankDomain|..];
    if rawQuery == "" {
      assert rest == path;
      assert IndexOf(rest, '?') == |rest|;
    } else {
      assert rest == path + "?" + rawQuery;
      assert rest[|path|] == '?';
      assert IndexOf(rest, '?') == |path|;
      assert rest[..|path|] == path && rest[|path| + 1..] == rawQuery;
    }
  }
}
