/**
 * ECMAScript regular expressions, left uninterpreted.
 *
 * A pattern is kept as its source text and flags. What a pattern matches is not modelled:
 * every operation takes an `Engine`, an arbitrary function that returns the successive
 * matches a global scan of the subject would produce, in order. The JavaScript operations
 * the rules use are defined from that one function, so they agree with one another:
 * `test` and `exec` look at the first match, `match` with the `g` flag returns all match
 * texts, and `countOccurrences` counts them.
 */
module Regex {
  import opened Wrappers

  /** A regular-expression literal: `/source/flags`. */
  datatype Regex = Regex(source: string, flags: string)

  /** One match: where it starts, the text it covers, and its capture groups 1, 2, ... (`undefined` is `None`). */
  datatype Match = Match(index: nat, text: string, groups: seq<Option<string>>)

  /** The matches of a pattern in a subject, in the order a global scan finds them. */
  type Engine = (Regex, string) -> seq<Match>

  /** `pattern.test(s)` on a freshly created pattern (every pattern in the rules is a fresh literal). */
  predicate Matches(e: Engine, p: Regex, s: string) {
    |e(p, s)| > 0
  }

  /** `pattern.exec(s)` / `s.match(pattern)` without `g`: the first match, or `null`. */
  function Exec(e: Engine, p: Regex, s: string): (r: Option<Match>)
    ensures r.Some? <==> Matches(e, p, s)
    ensures r.Some? ==> r.value == e(p, s)[0]
  {
    if |e(p, s)| > 0 then Some(e(p, s)[0]) else None
  }

  /** `s.match(pattern) || []` for a pattern with the `g` flag: the texts of all matches. */
  function MatchAll(e: Engine, p: Regex, s: string): (r: seq<string>)
    ensures |r| == |e(p, s)|
    ensures forall i :: 0 <= i < |r| ==> r[i] == e(p, s)[i].text
  {
    seq(|e(p, s)|, i requires 0 <= i < |e(p, s)| => e(p, s)[i].text)
  }

  /** Capture group `k` (1-based) of a match: `match[k]`. */
  function Group(m: Match, k: nat): Option<string>
    requires k >= 1
  {
    if k <= |m.groups| then m.groups[k - 1] else None
  }

  /**
   * `countOccurrences`: the pattern is rebuilt as `new RegExp(pattern.source, 'g')`, so any
   * other flag it had (`i`, `m`) is dropped before the matches are counted.
   */
  function CountOccurrences(e: Engine, p: Regex, s: string): (n: nat)
    ensures n == |MatchAll(e, Regex(p.source, "g"), s)|
    ensures n == 0 <==> !Matches(e, Regex(p.source, "g"), s)
  {
    |e(Regex(p.source, "g"), s)|
  }
}
