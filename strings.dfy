/**
 * The Python string operations the core relies on: `sub in s`, `s.replace`,
 * `sep.join`, `s.split` and `str(n)` for a natural number and for `None`.
 */
module Strings {
  import opened Wrappers

  predicate IsPrefix(p: string, s: string) {
    |p| <= |s| && s[..|p|] == p
  }

  /** Python's `sub in s`. */
  function Contains(s: string, sub: string): bool
    decreases |s|
  {
    IsPrefix(sub, s) || (s != [] && Contains(s[1..], sub))
  }

  /** `sub` occurs in `s` starting at position `i`. */
  predicate OccursAt(s: string, sub: string, i: int) {
    0 <= i && i + |sub| <= |s| && s[i..i + |sub|] == sub
  }

  /** `sub in s` holds exactly when `sub` occurs at some position of `s`. */
  lemma {:induction false} ContainsIffOccurs(s: string, sub: string)
    ensures Contains(s, sub) <==> exists i :: OccursAt(s, sub, i)
    decreases |s|
  {
    if IsPrefix(sub, s) {
      assert OccursAt(s, sub, 0);
    } else if s == [] {
      assert forall i :: !OccursAt(s, sub, i);
    } else {
      ContainsIffOccurs(s[1..], sub);
      if Contains(s[1..], sub) {
        var j :| OccursAt(s[1..], sub, j);
        assert s[1..][j..j + |sub|] == s[j + 1..j + 1 + |sub|];
        assert OccursAt(s, sub, j + 1);
      }
      assert !OccursAt(s, sub, 0) by {
        if |sub| <= |s| {
          assert s[0..|sub|] == s[..|sub|];
        }
      }
      if exists i :: OccursAt(s, sub, i) {
        var i :| OccursAt(s, sub, i);
        assert s[1..][i - 1..i - 1 + |sub|] == s[i..i + |sub|];
        assert OccursAt(s[1..], sub, i - 1);
      }
    }
  }

  /** A pattern that is longer than the text cannot occur in it. */
  lemma {:induction false} ShortNotContains(s: string, sub: string)
    requires |s| < |sub|
    ensures !Contains(s, sub)
    decreases |s|
  {
    if s != [] {
      ShortNotContains(s[1..], sub);
    }
  }

  /** The last `k` characters of `a + b` are the last `k` of `b`. */
  lemma SuffixOfAppend(a: string, b: string, k: nat)
    requires k <= |b|
    ensures (a + b)[|a + b| - k..] == b[|b| - k..]
  {
  }

  /** A text with a character that `s` lacks does not occur in `s`. */
  lemma {:induction false} MissingCharNotContains(s: string, sub: string, c: char)
    requires c in sub && c !in s
    ensures !Contains(s, sub)
    decreases |s|
  {
    if s != [] {
      MissingCharNotContains(s[1..], sub, c);
    }
  }

  /**
   * Python's `s.replace(pat, rep)`: every non-overlapping occurrence of `pat`,
   * scanning from the left, is replaced by `rep`. With an empty `pat`, Python
   * inserts `rep` before every character and at the end.
   */
  function ReplaceAll(s: string, pat: string, rep: string): string
    decreases |s|
  {
    if pat == [] then
      (if s == [] then rep else rep + [s[0]] + ReplaceAll(s[1..], pat, rep))
    else if |s| < |pat| then s
    else if s[..|pat|] == pat then rep + ReplaceAll(s[|pat|..], pat, rep)
    else [s[0]] + ReplaceAll(s[1..], pat, rep)
  }

  /** Replacing a pattern that does not occur leaves the text unchanged. */
  lemma {:induction false} ReplaceAbsent(s: string, pat: string, rep: string)
    requires pat != [] && !Contains(s, pat)
    ensures ReplaceAll(s, pat, rep) == s
    decreases |s|
  {
    if |s| >= |pat| {
      ReplaceAbsent(s[1..], pat, rep);
    }
  }

  /** No character of `t` occurs in `rep`. */
  predicate AvoidsAll(t: string, rep: string) {
    forall c :: c in rep ==> c !in t
  }

  /**
   * A prefix of the replaced text made only of characters that are not in
   * `rep` was copied from the original text.
   */
  lemma {:induction false} PrefixKept(t: string, pat: string, rep: string, k: nat)
    requires pat != [] && rep != []
    requires k <= |ReplaceAll(t, pat, rep)|
    requires forall j :: 0 <= j < k ==> ReplaceAll(t, pat, rep)[j] !in rep
    ensures k <= |t| && ReplaceAll(t, pat, rep)[..k] == t[..k]
    decreases |t|
  {
    var r := ReplaceAll(t, pat, rep);
    if |t| < |pat| {
    } else if t[..|pat|] == pat {
      assert r[0] == rep[0];
      if k > 0 {
        assert false;
      }
    } else if k > 0 {
      var r' := ReplaceAll(t[1..], pat, rep);
      assert r == [t[0]] + r';
      forall j | 0 <= j < k - 1
        ensures r'[j] !in rep
      {
        assert r'[j] == r[j + 1];
      }
      PrefixKept(t[1..], pat, rep, k - 1);
      assert r[..k] == [t[0]] + r'[..k - 1];
    }
  }

  /** `x` does not occur after prepending a character that cannot start it. */
  lemma NotContainsPrepend(c: char, rest: string, x: string)
    requires x != [] && c != x[0] && !Contains(rest, x)
    ensures !Contains([c] + rest, x)
  {
    assert ([c] + rest)[1..] == rest;
  }

  /** `x` does not occur after prepending a text none of whose characters start it. */
  lemma {:induction false} NotContainsPrependAll(front: string, rest: string, x: string)
    requires x != [] && x[0] !in front && !Contains(rest, x)
    ensures !Contains(front + rest, x)
    decreases |front|
  {
    if front != [] {
      NotContainsPrependAll(front[1..], rest, x);
      assert front + rest == [front[0]] + (front[1..] + rest);
      NotContainsPrepend(front[0], front[1..] + rest, x);
    } else {
      assert front + rest == rest;
    }
  }

  /**
   * After `s.replace(pat, rep)`, `pat` no longer occurs, provided `rep` shares
   * no character with `pat` and either `rep` is non-empty or `pat` is a single
   * character.
   */
  lemma {:induction false} ReplaceRemoves(s: string, pat: string, rep: string)
    requires pat != [] && AvoidsAll(pat, rep)
    requires rep != [] || |pat| == 1
    ensures !Contains(ReplaceAll(s, pat, rep), pat)
    decreases |s|
  {
    var r := ReplaceAll(s, pat, rep);
    if |s| < |pat| {
      ShortNotContains(s, pat);
    } else if s[..|pat|] == pat {
      ReplaceRemoves(s[|pat|..], pat, rep);
      NotContainsPrependAll(rep, ReplaceAll(s[|pat|..], pat, rep), pat);
    } else {
      var r' := ReplaceAll(s[1..], pat, rep);
      ReplaceRemoves(s[1..], pat, rep);
      assert r == [s[0]] + r';
      assert r[1..] == r';
      if IsPrefix(pat, r) {
        if |pat| == 1 {
          assert false;
        } else {
          forall j | 0 <= j < |pat|
            ensures r[j] !in rep
          {
            assert r[j] == pat[j];
          }
          PrefixKept(s, pat, rep, |pat|);
          assert false;
        }
      }
    }
  }

  /**
   * Replacing one pattern cannot create an occurrence of another text `x`
   * when the replacement is non-empty and shares no character with `x`.
   */
  lemma {:induction false} ReplaceKeepsAbsent(s: string, pat: string, rep: string, x: string)
    requires pat != [] && rep != [] && x != [] && AvoidsAll(x, rep)
    requires !Contains(s, x)
    ensures !Contains(ReplaceAll(s, pat, rep), x)
    decreases |s|
  {
    var r := ReplaceAll(s, pat, rep);
    if |s| < |pat| {
    } else if s[..|pat|] == pat {
      NotContainsSuffix(s, |pat|, x);
      ReplaceKeepsAbsent(s[|pat|..], pat, rep, x);
      NotContainsPrependAll(rep, ReplaceAll(s[|pat|..], pat, rep), x);
    } else {
      var r' := ReplaceAll(s[1..], pat, rep);
      NotContainsSuffix(s, 1, x);
      ReplaceKeepsAbsent(s[1..], pat, rep, x);
      assert r == [s[0]] + r';
      assert r[1..] == r';
      if IsPrefix(x, r) {
        forall j | 0 <= j < |x|
          ensures r[j] !in rep
        {
          assert r[j] == x[j];
        }
        PrefixKept(s, pat, rep, |x|);
        assert false;
      }
    }
  }

  /** A text that does not occur in `s` does not occur in any suffix of `s`. */
  lemma {:induction false} NotContainsSuffix(s: string, k: nat, x: string)
    requires k <= |s| && !Contains(s, x)
    ensures !Contains(s[k..], x)
    decreases k
  {
    if k > 0 {
      NotContainsSuffix(s[1..], k - 1, x);
      assert s[1..][k - 1..] == s[k..];
    }
  }

  /**
   * When `pat` occurs in `stem + pat` only at the end, replacing it swaps
   * exactly that final occurrence for `rep`.
   */
  lemma {:induction false} ReplaceAtEnd(stem: string, pat: string, rep: string)
    requires pat != []
    requires forall i :: 0 <= i < |stem| ==> !IsPrefix(pat, (stem + pat)[i..])
    ensures ReplaceAll(stem + pat, pat, rep) == stem + rep
    decreases |stem|
  {
    var s := stem + pat;
    if stem == [] {
      assert s == pat && s[..|pat|] == pat;
      assert s[|pat|..] == [];
      assert ReplaceAll(s, pat, rep) == rep + ReplaceAll([], pat, rep);
      assert stem + rep == rep;
    } else {
      assert !IsPrefix(pat, s[0..]);
      assert s[0..] == s;
      assert s[1..] == stem[1..] + pat;
      NoEarlyMatchTail(stem, pat);
      ReplaceAtEnd(stem[1..], pat, rep);
      assert ReplaceAll(s, pat, rep) == [stem[0]] + (stem[1..] + rep);
      assert [stem[0]] + (stem[1..] + rep) == stem + rep;
    }
  }

  lemma NoEarlyMatchTail(stem: string, pat: string)
    requires stem != []
    requires forall i :: 0 <= i < |stem| ==> !IsPrefix(pat, (stem + pat)[i..])
    ensures forall i :: 0 <= i < |stem[1..]| ==> !IsPrefix(pat, (stem[1..] + pat)[i..])
  {
    forall i | 0 <= i < |stem[1..]|
      ensures !IsPrefix(pat, (stem[1..] + pat)[i..])
    {
      assert (stem[1..] + pat)[i..] == (stem + pat)[i + 1..];
    }
  }

  /** Python's `sep.join(parts)`. */
  function Join(sep: string, parts: seq<string>): string
    decreases |parts|
  {
    if parts == [] then ""
    else if |parts| == 1 then parts[0]
    else parts[0] + sep + Join(sep, parts[1..])
  }

  /** Joining one more part adds the separator and that part at the end. */
  lemma {:induction false} JoinSnoc(sep: string, parts: seq<string>, x: string)
    requires parts != []
    ensures Join(sep, parts + [x]) == Join(sep, parts) + sep + x
    decreases |parts|
  {
    if |parts| == 1 {
      assert (parts + [x])[1..] == [x];
    } else {
      assert (parts + [x])[1..] == parts[1..] + [x];
      JoinSnoc(sep, parts[1..], x);
    }
  }

  /** Python's `s.split(c)` for a single-character separator. */
  function Split(s: string, c: char): (r: seq<string>)
    ensures |r| >= 1
    decreases |s|
  {
    if s == [] then [""]
    else
      var rest := Split(s[1..], c);
      if s[0] == c then [""] + rest else [[s[0]] + rest[0]] + rest[1..]
  }

  /** `c.join(s.split(c)) == s`: splitting loses nothing. */
  lemma {:induction false} JoinSplit(s: string, c: char)
    ensures Join([c], Split(s, c)) == s
    decreases |s|
  {
    if s != [] {
      var rest := Split(s[1..], c);
      JoinSplit(s[1..], c);
      if s[0] == c {
        assert ([""] + rest)[1..] == rest;
      } else if |rest| == 1 {
      } else {
        var r := [[s[0]] + rest[0]] + rest[1..];
        assert r[1..] == rest[1..];
        assert Join([c], rest) == rest[0] + [c] + Join([c], rest[1..]);
      }
    }
  }

  /** No piece of `s.split(c)` contains the separator. */
  lemma {:induction false} SplitPiecesFree(s: string, c: char)
    ensures forall p :: p in Split(s, c) ==> c !in p
    decreases |s|
  {
    if s != [] {
      SplitPiecesFree(s[1..], c);
    }
  }

  /** A text without the separator splits into itself. */
  lemma {:induction false} SplitFree(s: string, c: char)
    requires c !in s
    ensures Split(s, c) == [s]
    decreases |s|
  {
    if s != [] {
      SplitFree(s[1..], c);
      assert [s[0]] + s[1..] == s;
    }
  }

  /** Splitting `a + c + rest` where `a` has no separator yields `a` first. */
  lemma {:induction false} SplitAfterPiece(a: string, c: char, rest: string)
    requires c !in a
    ensures Split(a + [c] + rest, c) == [a] + Split(rest, c)
    decreases |a|
  {
    if a == [] {
      assert a + [c] + rest == [c] + rest;
      assert ([c] + rest)[1..] == rest;
    } else {
      var whole := a + [c] + rest;
      assert whole[0] == a[0] && whole[1..] == a[1..] + [c] + rest;
      SplitAfterPiece(a[1..], c, rest);
      assert [a[0]] + a[1..] == a;
    }
  }

  /** `c.join(parts).split(c) == parts` when no part contains `c`. */
  lemma {:induction false} SplitJoin(parts: seq<string>, c: char)
    requires parts != []
    requires forall p :: p in parts ==> c !in p
    ensures Split(Join([c], parts), c) == parts
    decreases |parts|
  {
    if |parts| == 1 {
      SplitFree(parts[0], c);
    } else {
      SplitJoin(parts[1..], c);
      SplitAfterPiece(parts[0], c, Join([c], parts[1..]));
    }
  }

  predicate IsDigit(c: char) {
    '0' as int <= c as int <= '9' as int
  }

  function DigitChar(d: nat): (c: char)
    requires d < 10
    ensures IsDigit(c)
  {
    ('0' as int + d) as char
  }

  /** Python's `str(n)` for a natural number: its decimal digits. */
  function NatToString(n: nat): string
    decreases n
  {
    if n < 10 then [DigitChar(n)] else NatToString(n / 10) + [DigitChar(n % 10)]
  }

  /** The number a string of decimal digits denotes. */
  function DecimalValue(s: string): nat
    requires forall i :: 0 <= i < |s| ==> IsDigit(s[i])
    decreases |s|
  {
    if s == [] then 0
    else
      var last := s[|s| - 1];
      assert IsDigit(last);
      DecimalValue(s[..|s| - 1]) * 10 + (last as int - '0' as int)
  }

  /**
   * `str(n)` is a non-empty string of digits without a leading zero (unless it
   * is "0") that denotes `n`; so distinct numbers give distinct strings.
   */
  lemma {:induction false} NatToStringDecimal(n: nat)
    ensures var s := NatToString(n);
      && s != []
      && (forall i :: 0 <= i < |s| ==> IsDigit(s[i]))
      && (|s| > 1 ==> s[0] != '0')
      && DecimalValue(s) == n
    decreases n
  {
    if n >= 10 {
      NatToStringDecimal(n / 10);
      var s := NatToString(n);
      assert s[..|s| - 1] == NatToString(n / 10);
    }
  }

  /** `str` of an optional string: `None` prints as "None". */
  function OptStr(o: Option<string>): string {
    if o.Some? then o.value else "None"
  }
}
