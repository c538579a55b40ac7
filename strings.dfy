/**
 * The JavaScript string operations the scoring rules use without a regular expression:
 * `includes`, `indexOf`, `startsWith`, `endsWith`, `split` on one character, `trim`,
 * `toLowerCase`, `replace` of a literal string, and number-to-string conversion.
 * A string is a `seq<char>`; its length is the number of characters.
 */
module Strings {
  import opened Wrappers

  /** `t` occurs in `s` starting at index `i`. */
  predicate OccursAt(s: string, t: string, i: int) {
    0 <= i && i + |t| <= |s| && s[i..i + |t|] == t
  }

  lemma OccursAtShift(s: string, t: string, j: int)
    requires |s| > 0 && 0 <= j
    ensures OccursAt(s, t, j + 1) <==> OccursAt(s[1..], t, j)
  {
    if j + 1 + |t| <= |s| {
      assert s[1..][j..j + |t|] == s[j + 1..j + 1 + |t|];
    }
  }

  /** `s.indexOf(t)`: the first index at which `t` occurs in `s`, if any. */
  function IndexOf(s: string, t: string): (r: Option<nat>)
    ensures r.Some? ==> OccursAt(s, t, r.value)
    ensures r.Some? ==> forall j :: 0 <= j < r.value ==> !OccursAt(s, t, j)
    ensures r.None? ==> forall j :: !OccursAt(s, t, j)
    decreases |s|
  {
    if |t| > |s| then None
    else if s[..|t|] == t then Some(0)
    else
      var rest := IndexOf(s[1..], t);
      assert forall j :: 0 <= j ==> (OccursAt(s, t, j + 1) <==> OccursAt(s[1..], t, j)) by {
        forall j | 0 <= j ensures OccursAt(s, t, j + 1) <==> OccursAt(s[1..], t, j) {
          OccursAtShift(s, t, j);
        }
      }
      assert !OccursAt(s, t, 0);
      assert forall j :: OccursAt(s, t, j) ==> j >= 1 && OccursAt(s[1..], t, j - 1);
      match rest
      case None => None
      case Some(k) => Some(k + 1)
  }

  /** `s.includes(t)`. */
  predicate Contains(s: string, t: string) {
    IndexOf(s, t).Some?
  }

  lemma ContainsIff(s: string, t: string)
    ensures Contains(s, t) <==> exists i :: OccursAt(s, t, i)
  {
  }

  /** An occurrence inside an occurrence is an occurrence, at the summed offset. */
  lemma OccursAtCompose(s: string, t: string, u: string, i: int, j: int)
    requires OccursAt(s, t, i) && OccursAt(t, u, j)
    ensures OccursAt(s, u, i + j)
  {
    forall m | 0 <= m < |u|
      ensures s[i + j + m] == u[m]
    {
      assert u[m] == t[j + m] == s[i + (j + m)];
    }
    assert s[i + j..i + j + |u|] == u;
  }

  /** A substring of a substring is a substring. */
  lemma ContainsTransitive(s: string, t: string, u: string)
    requires Contains(s, t) && Contains(t, u)
    ensures Contains(s, u)
  {
    ContainsIff(s, t);
    ContainsIff(t, u);
    var i :| OccursAt(s, t, i);
    var j :| OccursAt(t, u, j);
    OccursAtCompose(s, t, u, i, j);
    ContainsIff(s, u);
  }

  /** `s.startsWith(t)`. */
  predicate StartsWith(s: string, t: string) {
    |t| <= |s| && s[..|t|] == t
  }

  /** `s.endsWith(t)`. */
  predicate EndsWith(s: string, t: string) {
    |t| <= |s| && s[|s| - |t|..] == t
  }

  /** `s.split(sep)` for a one-character separator: the maximal runs between separators. */
  function Split(s: string, sep: char): (pieces: seq<string>)
    ensures |pieces| >= 1
  {
    if |s| == 0 then [""]
    else
      var rest := Split(s[..|s| - 1], sep);
      if s[|s| - 1] == sep then rest + [""]
      else rest[..|rest| - 1] + [rest[|rest| - 1] + [s[|s| - 1]]]
  }

  /** Joins pieces with `sep` between them (`pieces.join(sep)`). */
  function Join(pieces: seq<string>, sep: char): string
    requires |pieces| >= 1
  {
    if |pieces| == 1 then pieces[0]
    else Join(pieces[..|pieces| - 1], sep) + [sep] + pieces[|pieces| - 1]
  }

  /** One step of `Split`: the last character either opens a new piece or extends the last one. */
  lemma SplitSnoc(s: string, sep: char)
    requires |s| > 0
    ensures var rest := Split(s[..|s| - 1], sep);
            Split(s, sep) ==
              if s[|s| - 1] == sep then rest + [""]
              else rest[..|rest| - 1] + [rest[|rest| - 1] + [s[|s| - 1]]]
  {
  }

  /** Splitting yields one more piece than there are separators. */
  lemma {:induction false} SplitLength(s: string, sep: char)
    ensures |Split(s, sep)| == 1 + multiset(s)[sep]
  {
    if |s| > 0 {
      var init, c := s[..|s| - 1], s[|s| - 1];
      var rest := Split(init, sep);
      SplitLength(init, sep);
      SplitSnoc(s, sep);
      assert s == init + [c];
      assert multiset(s) == multiset(init) + multiset{c};
      if c == sep {
        assert |Split(s, sep)| == |rest| + 1;
      } else {
        assert |Split(s, sep)| == |rest|;
      }
    }
  }

  /** No piece of a split contains the separator. */
  lemma {:induction false} SplitPiecesFree(s: string, sep: char)
    ensures forall k :: 0 <= k < |Split(s, sep)| ==> sep !in Split(s, sep)[k]
  {
    if |s| > 0 {
      var init, c := s[..|s| - 1], s[|s| - 1];
      SplitPiecesFree(init, sep);
      SplitSnoc(s, sep);
      var rest := Split(init, sep);
      var pieces := Split(s, sep);
      forall k | 0 <= k < |pieces|
        ensures sep !in pieces[k]
      {
        if k < |rest| - 1 {
          assert pieces[k] == rest[k];
        } else if c != sep {
          assert pieces[k] == rest[|rest| - 1] + [c];
        } else if k == |rest| - 1 {
          assert pieces[k] == rest[k];
        }
      }
    }
  }

  /** Appending a character to the last piece appends it to the joined string. */
  lemma JoinExtendLast(pieces: seq<string>, sep: char, c: char)
    requires |pieces| >= 1
    ensures Join(pieces[..|pieces| - 1] + [pieces[|pieces| - 1] + [c]], sep) == Join(pieces, sep) + [c]
  {
    var extended := pieces[..|pieces| - 1] + [pieces[|pieces| - 1] + [c]];
    if |pieces| > 1 {
      assert extended[..|extended| - 1] == pieces[..|pieces| - 1];
    }
  }

  /** Joining the pieces of a split gives the string back. */
  lemma {:induction false} JoinSplit(s: string, sep: char)
    ensures Join(Split(s, sep), sep) == s
  {
    if |s| > 0 {
      var init, c := s[..|s| - 1], s[|s| - 1];
      JoinSplit(init, sep);
      SplitSnoc(s, sep);
      var rest := Split(init, sep);
      assert s == init + [c];
      if c == sep {
        var pieces := rest + [""];
        assert pieces[..|pieces| - 1] == rest;
        assert Join(pieces, sep) == Join(rest, sep) + [sep];
      } else {
        JoinExtendLast(rest, sep, c);
      }
    }
  }

  /** No piece contains the separator, and joining the pieces gives the string back. */
  lemma SplitJoin(s: string, sep: char)
    ensures forall k :: 0 <= k < |Split(s, sep)| ==> sep !in Split(s, sep)[k]
    ensures Join(Split(s, sep), sep) == s
  {
    SplitPiecesFree(s, sep);
    JoinSplit(s, sep);
  }

  /** The index of the last occurrence of `c` in `s`, or -1 (`s.lastIndexOf(c)`). */
  function LastIndexOfChar(s: string, c: char): (r: int)
    ensures -1 <= r < |s|
    ensures r >= 0 ==> s[r] == c
    ensures forall j :: r < j < |s| ==> s[j] != c
  {
    if |s| == 0 then -1
    else if s[|s| - 1] == c then |s| - 1
    else LastIndexOfChar(s[..|s| - 1], c)
  }

  /** A suffix of a non-empty string is the suffix of its initial part plus the last character. */
  lemma SuffixOfSnoc(s: string, k: int)
    requires 0 <= k < |s|
    ensures s[k..] == s[..|s| - 1][k..] + [s[|s| - 1]]
  {
  }

  /** The last piece of a split is the text after the last separator (all of `s` if there is none). */
  lemma {:induction false} SplitLast(s: string, sep: char)
    ensures var pieces := Split(s, sep);
            pieces[|pieces| - 1] == s[LastIndexOfChar(s, sep) + 1..]
  {
    if |s| > 0 {
      var init, c := s[..|s| - 1], s[|s| - 1];
      SplitSnoc(s, sep);
      var rest := Split(init, sep);
      var pieces := Split(s, sep);
      if c == sep {
        assert LastIndexOfChar(s, sep) == |s| - 1;
        assert pieces == rest + [""];
      } else {
        SplitLast(init, sep);
        var ri := LastIndexOfChar(init, sep);
        assert LastIndexOfChar(s, sep) == ri;
        assert pieces[|pieces| - 1] == rest[|rest| - 1] + [c];
        SuffixOfSnoc(s, ri + 1);
      }
    }
  }

  /** ASCII upper-case letters lowered; every other character unchanged. */
  function LowerChar(c: char): char {
    if 'A' <= c <= 'Z' then (c as int + 32) as char else c
  }

  /** `s.toLowerCase()`, restricted to ASCII letters. */
  function ToLower(s: string): (r: string)
    ensures |r| == |s|
    ensures forall i :: 0 <= i < |s| ==> r[i] == LowerChar(s[i])
  {
    seq(|s|, i requires 0 <= i < |s| => LowerChar(s[i]))
  }

  /** The characters `String.prototype.trim` removes: ECMAScript WhiteSpace and LineTerminator. */
  const WHITESPACE: set<char> := {
    '\t', '\n', '\U{B}', '\U{C}', '\r', ' ', '\U{A0}', '\U{1680}',
    '\U{2000}', '\U{2001}', '\U{2002}', '\U{2003}', '\U{2004}', '\U{2005}', '\U{2006}',
    '\U{2007}', '\U{2008}', '\U{2009}', '\U{200A}',
    '\U{2028}', '\U{2029}', '\U{202F}', '\U{205F}', '\U{3000}', '\U{FEFF}'
  }

  function TrimStart(s: string): (r: string)
    ensures |r| <= |s| && r == s[|s| - |r|..]
    ensures |r| > 0 ==> r[0] !in WHITESPACE
    ensures forall i :: 0 <= i < |s| - |r| ==> s[i] in WHITESPACE
  {
    if |s| > 0 && s[0] in WHITESPACE then TrimStart(s[1..]) else s
  }

  function TrimEnd(s: string): (r: string)
    ensures |r| <= |s| && r == s[..|r|]
    ensures |r| > 0 ==> r[|r| - 1] !in WHITESPACE
    ensures forall i :: |r| <= i < |s| ==> s[i] in WHITESPACE
  {
    if |s| > 0 && s[|s| - 1] in WHITESPACE then TrimEnd(s[..|s| - 1]) else s
  }

  /** `s.trim()`. */
  function Trim(s: string): string {
    TrimEnd(TrimStart(s))
  }

  /** `s.map(x => x.trim())`. */
  function TrimAll(s: seq<string>): (r: seq<string>)
    ensures |r| == |s|
    ensures forall i :: 0 <= i < |s| ==> r[i] == Trim(s[i])
  {
    seq(|s|, i requires 0 <= i < |s| => Trim(s[i]))
  }

  /** `s.replace(pat, rep)` with a literal string pattern: only the first occurrence is replaced. */
  function ReplaceFirst(s: string, pat: string, rep: string): (r: string)
    ensures IndexOf(s, pat).None? ==> r == s
    ensures IndexOf(s, pat).Some? ==>
              var i := IndexOf(s, pat).value;
              r == s[..i] + rep + s[i + |pat|..]
  {
    match IndexOf(s, pat)
    case None => s
    case Some(i) => s[..i] + rep + s[i + |pat|..]
  }

  function DigitChar(d: nat): char
    requires d < 10
  {
    ('0' as int + d) as char
  }

  /** The decimal numeral of `n`, as JavaScript writes a non-negative integer in a template string. */
  function NatToString(n: nat): (r: string)
    ensures |r| >= 1
    ensures forall i :: 0 <= i < |r| ==> '0' <= r[i] <= '9'
  {
    if n < 10 then [DigitChar(n)] else NatToString(n / 10) + [DigitChar(n % 10)]
  }

  /** The value a string of decimal digits denotes. */
  function DigitsValue(s: string): nat
    requires forall i :: 0 <= i < |s| ==> '0' <= s[i] <= '9'
  {
    if |s| == 0 then 0 else 10 * DigitsValue(s[..|s| - 1]) + (s[|s| - 1] as int - '0' as int)
  }

  /** Reading the numeral back gives the number. */
  lemma {:induction false} NatToStringValue(n: nat)
    ensures DigitsValue(NatToString(n)) == n
  {
    if n >= 10 {
      NatToStringValue(n / 10);
      var r := NatToString(n);
      assert r[..|r| - 1] == NatToString(n / 10);
    }
  }
}
