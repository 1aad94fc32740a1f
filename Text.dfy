/** The two string operations the servers apply to collected lines and ids. */
module Text {

  /** Python's `sep.join(parts)`. */
  function Join(sep: string, parts: seq<string>): string
  {
    if |parts| == 0 then ""
    else if |parts| == 1 then parts[0]
    else parts[0] + sep + Join(sep, parts[1..])
  }

  /** A list whose newline join is empty: no line at all, or one empty line. */
  predicate Blank(lines: seq<string>)
  {
    |lines| == 0 || (|lines| == 1 && lines[0] == "")
  }

  /** Joining with a non-empty separator is empty exactly for blank lists:
      `["", ""]` already joins to one separator. */
  lemma {:induction false} JoinEmptyIff(sep: string, lines: seq<string>)
    requires sep != ""
    ensures Join(sep, lines) == "" <==> Blank(lines)
  {
    if |lines| >= 2 {
      assert |Join(sep, lines)| >= |sep| > 0;
    }
  }

  /** Python's slice `s[:n]`: at most the first `n` characters. */
  function Prefix(s: string, n: nat): (r: string)
    ensures r <= s
    ensures |r| == if |s| < n then |s| else n
  {
    if |s| <= n then s else s[..n]
  }
}
