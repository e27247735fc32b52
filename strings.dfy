/** The string operations of ECMAScript that the chat code uses: `trim`,
    `indexOf`, `slice(0, n)` and `replace` with a string pattern. */
module Strings {
  import opened Js

  /** The characters `String.prototype.trim` removes: the WhiteSpace and
      LineTerminator code points of ECMA-262 (sections 12.2 and 12.3). */
  predicate IsWhitespace(c: char) {
    || c == '\t' || c == '\n' || c == '\U{000B}' || c == '\U{000C}' || c == '\r'
    || c == ' ' || c == '\U{00A0}' || c == '\U{1680}'
    || ('\U{2000}' <= c <= '\U{200A}')
    || c == '\U{2028}' || c == '\U{2029}' || c == '\U{202F}' || c == '\U{205F}'
    || c == '\U{3000}' || c == '\U{FEFF}'
  }

  predicate AllWhitespace(s: string) {
    forall i :: 0 <= i < |s| ==> IsWhitespace(s[i])
  }

  /** Neither end of `s` is whitespace. */
  predicate IsTrimmed(s: string) {
    s == [] || (!IsWhitespace(s[0]) && !IsWhitespace(s[|s| - 1]))
  }

  /** `t` occurs in `s` starting at position `k`. */
  predicate OccursAt(s: string, t: string, k: int) {
    0 <= k <= |s| - |t| && s[k..k + |t|] == t
  }

  /** `t` occurs in `s` as a contiguous piece. */
  ghost predicate Contains(s: string, t: string) {
    exists k :: OccursAt(s, t, k)
  }

  function TrimStart(s: string): (r: string)
    ensures |r| <= |s| && r == s[|s| - |r|..]
    ensures r == [] || !IsWhitespace(r[0])
    ensures AllWhitespace(s[..|s| - |r|])
  {
    if s != [] && IsWhitespace(s[0]) then TrimStart(s[1..]) else s
  }

  function TrimEnd(s: string): (r: string)
    ensures |r| <= |s| && r == s[..|r|]
    ensures r == [] || !IsWhitespace(r[|r| - 1])
    ensures AllWhitespace(s[|r|..])
  {
    if s != [] && IsWhitespace(s[|s| - 1]) then TrimEnd(s[..|s| - 1]) else s
  }

  /** `s.trim()`: whitespace removed from both ends. What it gives is
      stated by `TrimMeaning`. */
  function Trim(s: string): string {
    TrimEnd(TrimStart(s))
  }

  /** The trimmed string is the piece of `s` left once whitespace is removed
      from both ends: what precedes and what follows it in `s` is whitespace
      only, and it has no whitespace at either end. It is empty exactly when
      `s` is whitespace only. */
  lemma TrimMeaning(s: string)
    ensures IsTrimmed(Trim(s))
    ensures Trim(s) == [] <==> AllWhitespace(s)
    ensures Contains(s, Trim(s))
    ensures var k := |s| - |TrimStart(s)|;
      && OccursAt(s, Trim(s), k)
      && AllWhitespace(s[..k])
      && AllWhitespace(s[k + |Trim(s)|..])
  {
    TrimEmptyOnlyIfBlank(s);
    TrimEmptyIfBlank(s);
    TrimOccurs(s);
    TrimSurroundings(s);
  }

  lemma TrimSurroundings(s: string)
    ensures var k := |s| - |TrimStart(s)|;
      AllWhitespace(s[..k]) && AllWhitespace(s[k + |TrimEnd(TrimStart(s))|..])
  {
    var a := TrimStart(s);
    var r := TrimEnd(a);
    assert s[|s| - |a| + |r|..] == a[|r|..];
  }

  lemma TrimEmptyIfBlank(s: string)
    ensures AllWhitespace(s) ==> TrimEnd(TrimStart(s)) == []
  {
    var a := TrimStart(s);
    var r := TrimEnd(a);
    if r != [] {
      assert s[|s| - |a|] == a[0] == r[0];
    }
  }

  lemma TrimEmptyOnlyIfBlank(s: string)
    ensures TrimEnd(TrimStart(s)) == [] ==> AllWhitespace(s)
  {
    var a := TrimStart(s);
    var r := TrimEnd(a);
    if r == [] {
      assert a[|r|..] == a;
      TrimStartEmpty(s);
    }
  }

  lemma TrimStartEmpty(s: string)
    requires TrimStart(s) == []
    ensures AllWhitespace(s)
  {
    assert s[..|s| - |TrimStart(s)|] == s;
  }

  lemma TrimOccurs(s: string)
    ensures OccursAt(s, TrimEnd(TrimStart(s)), |s| - |TrimStart(s)|)
  {
    var a := TrimStart(s);
    var r := TrimEnd(a);
    var i := |s| - |a|;
    assert a == s[i..] && r == a[..|r|];
    assert s[i..i + |r|] == s[i..][..|r|];
  }

  /** Trimming a trimmed string leaves it unchanged, so trimming twice is trimming once. */
  lemma TrimOfTrimmed(s: string)
    requires IsTrimmed(s)
    ensures Trim(s) == s
  {
    assert TrimStart(s) == s;
    assert TrimEnd(s) == s;
  }

  lemma TrimIdempotent(s: string)
    ensures Trim(Trim(s)) == Trim(s)
  {
    TrimMeaning(s);
    TrimOfTrimmed(Trim(s));
  }

  /** `s.slice(0, n)`: at most the first `n` characters of `s`. */
  function Prefix(s: string, n: nat): (r: string)
    ensures |r| == if |s| < n then |s| else n
    ensures r == s[..|r|]
  {
    if |s| <= n then s else s[..n]
  }

  /** `s.indexOf(pat)`: the position of the first occurrence of `pat`, if
      any. What it finds is stated by `IndexOfMeaning`. */
  function IndexOf(s: string, pat: string): Option<nat>
    decreases |s|
  {
    if |s| < |pat| then None
    else if s[..|pat|] == pat then Some(0)
    else
      match IndexOf(s[1..], pat)
      case None => None
      case Some(k) => Some(k + 1)
  }

  /** `indexOf` finds an occurrence exactly when there is one, and then the
      first: no occurrence starts before the position it gives. */
  lemma {:induction false} IndexOfMeaning(s: string, pat: string)
    ensures IndexOf(s, pat).Some? ==> OccursAt(s, pat, IndexOf(s, pat).value)
    ensures IndexOf(s, pat).Some? ==> forall k :: 0 <= k < IndexOf(s, pat).value ==> !OccursAt(s, pat, k)
    ensures IndexOf(s, pat).None? <==> !Contains(s, pat)
    decreases |s|
  {
    if |s| < |pat| {
      assert forall k :: !OccursAt(s, pat, k);
    } else if s[..|pat|] == pat {
      assert OccursAt(s, pat, 0);
    } else {
      IndexOfMeaning(s[1..], pat);
      ShiftOccurs(s, pat);
      assert !OccursAt(s, pat, 0);
      if Contains(s, pat) {
        var k :| OccursAt(s, pat, k);
        assert OccursAt(s[1..], pat, k - 1);
      }
      if Contains(s[1..], pat) {
        var k :| OccursAt(s[1..], pat, k);
        assert OccursAt(s, pat, k + 1);
      }
    }
  }

  /** Occurrences in `s[1..]` are the occurrences in `s` moved one to the left. */
  lemma ShiftOccurs(s: string, pat: string)
    requires s != []
    ensures forall k {:trigger OccursAt(s, pat, k)} :: 1 <= k ==> (OccursAt(s, pat, k) <==> OccursAt(s[1..], pat, k - 1))
  {
    forall k | 1 <= k ensures OccursAt(s, pat, k) <==> OccursAt(s[1..], pat, k - 1) {
      if 1 <= k <= |s| - |pat| {
        var here, there := s[k..k + |pat|], s[1..][k - 1..k - 1 + |pat|];
        assert here == there by {
          forall j | 0 <= j < |pat| ensures here[j] == there[j] {
            assert here[j] == s[k + j];
          }
        }
      }
    }
  }

  /** When the first character of `pat` does not occur in `pre`, the first
      occurrence of `pat` in `pre + pat + post` is right after `pre`. */
  lemma {:induction false} IndexOfAfter(pre: string, pat: string, post: string)
    requires pat != [] && pat[0] !in pre
    ensures IndexOf(pre + pat + post, pat) == Some(|pre|)
    decreases |pre|
  {
    var s := pre + pat + post;
    if pre == [] {
      assert s[..|pat|] == pat;
    } else {
      assert s[..|pat|][0] == pre[0] != pat[0];
      assert pre[1..] + pat + post == s[1..];
      assert pat[0] !in pre[1..] by {
        assert forall c :: c in pre[1..] ==> c in pre;
      }
      IndexOfAfter(pre[1..], pat, post);
    }
  }

  /** The replacement string of `String.prototype.replace` with a string
      pattern, as the GetSubstitution operation of ECMA-262 builds it when
      there are no capture groups: `$$` stands for `$`, `$&` for the matched
      text, `` $` `` for the text before the match and `$'` for the text
      after it; any other `$` is kept as it is. */
  function Substitute(replacement: string, matched: string, before: string, after: string): string
    decreases |replacement|
  {
    if replacement == [] then []
    else if replacement[0] == '$' && |replacement| >= 2 then
      var rest := replacement[2..];
      match replacement[1]
      case '$' => "$" + Substitute(rest, matched, before, after)
      case '&' => matched + Substitute(rest, matched, before, after)
      case '`' => before + Substitute(rest, matched, before, after)
      case '\'' => after + Substitute(rest, matched, before, after)
      case _ => "$" + Substitute(replacement[1..], matched, before, after)
    else [replacement[0]] + Substitute(replacement[1..], matched, before, after)
  }

  /** Without a `$`, the replacement string is inserted as it is. */
  lemma {:induction false} SubstituteLiteral(replacement: string, matched: string, before: string, after: string)
    requires '$' !in replacement
    ensures Substitute(replacement, matched, before, after) == replacement
    decreases |replacement|
  {
    if replacement != [] {
      assert replacement[0] != '$';
      assert '$' !in replacement[1..] by {
        assert forall i :: 0 <= i < |replacement| - 1 ==> replacement[1..][i] == replacement[i + 1];
      }
      SubstituteLiteral(replacement[1..], matched, before, after);
    }
  }

  /** `s.replace(pat, replacement)` with a string `pat` and a string `replacement`:
      the first occurrence of `pat` is replaced by the substitution of `replacement`. */
  function Replace(s: string, pat: string, replacement: string): (r: string)
    ensures !Contains(s, pat) ==> r == s
  {
    IndexOfMeaning(s, pat);
    match IndexOf(s, pat)
    case None => s
    case Some(k) => s[..k] + Substitute(replacement, pat, s[..k], s[k + |pat|..]) + s[k + |pat|..]
  }

  /** Whatever `c` occurs in, `t` is not a piece of a string `s` free of `c`. */
  lemma NotContainedWithout(s: string, t: string, c: char)
    requires c in t && c !in s
    ensures !Contains(s, t)
  {
    var j :| 0 <= j < |t| && t[j] == c;
  }
}
