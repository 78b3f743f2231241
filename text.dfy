/** String and sequence helpers used by every part of the audit: case folding,
    substring tests, filtering, splitting into runs and decimal printing. */
module Text {

  /** ASCII lower-casing of one character. */
  function LowerChar(c: char): (r: char)
    ensures 'A' <= c <= 'Z' ==> r == c - 'A' + 'a'
    ensures !('A' <= c <= 'Z') ==> r == c
  {
    if 'A' <= c <= 'Z' then c - 'A' + 'a' else c
  }

  predicate IsUpper(c: char) {
    'A' <= c <= 'Z'
  }

  /** `s.lower()` */
  function Lower(s: string): (r: string)
    ensures |r| == |s|
    ensures forall i | 0 <= i < |s| :: r[i] == LowerChar(s[i])
    ensures forall c | c in r :: !IsUpper(c)
  {
    if s == [] then [] else [LowerChar(s[0])] + Lower(s[1..])
  }

  predicate IsPrefix(p: string, s: string) {
    |p| <= |s| && s[..|p|] == p
  }

  /** Python's `sub in s`. */
  predicate Contains(s: string, sub: string)
    decreases |s|
  {
    IsPrefix(sub, s) || (|s| > 0 && Contains(s[1..], sub))
  }

  /** `sub` occurs in `s` starting at position `i`. */
  predicate OccursAt(s: string, sub: string, i: int) {
    0 <= i <= |s| - |sub| && s[i..i + |sub|] == sub
  }

  /** `sub in s` holds exactly when `sub` occurs at some position of `s`. */
  lemma {:induction false} ContainsAt(s: string, sub: string)
    ensures Contains(s, sub) <==> exists i :: OccursAt(s, sub, i)
    decreases |s|
  {
    if IsPrefix(sub, s) {
      assert OccursAt(s, sub, 0);
    } else if |s| > 0 {
      ContainsAt(s[1..], sub);
      if Contains(s[1..], sub) {
        var i :| OccursAt(s[1..], sub, i);
        assert s[1..][i..i + |sub|] == s[i + 1..i + 1 + |sub|];
        assert OccursAt(s, sub, i + 1);
      } else {
        forall i | OccursAt(s, sub, i)
          ensures false
        {
          if i > 0 {
            assert s[1..][i - 1..i - 1 + |sub|] == s[i..i + |sub|];
            assert OccursAt(s[1..], sub, i - 1);
          }
        }
      }
    } else {
      assert forall i :: !OccursAt(s, sub, i);
    }
  }

  /** Lower-casing a text does not change whether it contains a text that
      has no upper-case letters. */
  lemma {:induction false} ContainsLowered(s: string, sub: string)
    requires forall c | c in sub :: !IsUpper(c) && LowerChar(c) == c
    requires forall c, d | c in sub && LowerChar(d) == c :: d == c
    ensures Contains(Lower(s), sub) <==> Contains(s, sub)
    decreases |s|
  {
    var t := Lower(s);
    assert IsPrefix(sub, t) <==> IsPrefix(sub, s) by {
      if |sub| <= |s| {
        if IsPrefix(sub, t) {
          forall i | 0 <= i < |sub| ensures s[i] == sub[i] {
            assert sub[i] in sub && LowerChar(s[i]) == sub[i];
          }
          assert s[..|sub|] == sub;
        }
        if IsPrefix(sub, s) {
          forall i | 0 <= i < |sub| ensures t[i] == sub[i] {
            assert s[i] == sub[i] && sub[i] in sub;
          }
          assert t[..|sub|] == sub;
        }
      }
    }
    if |s| > 0 {
      assert t[1..] == Lower(s[1..]);
      ContainsLowered(s[1..], sub);
    }
  }

  /** The digits of "404" survive lower-casing unchanged. */
  lemma Contains404Lowered(s: string)
    ensures Contains(Lower(s), "404") <==> Contains(s, "404")
  {
    ContainsLowered(s, "404");
  }

  /** The elements of `s` that satisfy `p`, in order (a list comprehension
      with an `if`). */
  function Filter<T>(s: seq<T>, p: T -> bool): (r: seq<T>)
    ensures |r| <= |s|
    ensures forall x | x in r :: x in s && p(x)
    ensures forall x | x in s && p(x) :: x in r
  {
    if s == [] then [] else Filter(s[..|s| - 1], p) + (if p(s[|s| - 1]) then [s[|s| - 1]] else [])
  }

  lemma {:induction false} FilterAppend<T>(a: seq<T>, b: seq<T>, p: T -> bool)
    ensures Filter(a + b, p) == Filter(a, p) + Filter(b, p)
    decreases |b|
  {
    if b == [] {
      assert a + b == a;
    } else {
      var b' := b[..|b| - 1];
      assert (a + b)[..|a + b| - 1] == a + b';
      FilterAppend(a, b', p);
    }
  }

  lemma ConcatCons(x: string, rest: seq<string>)
    ensures Concat([x] + rest) == x + Concat(rest)
  {
    assert ([x] + rest)[1..] == rest;
  }

  lemma FilterSplit<T>(s: seq<T>, n: nat, p: T -> bool)
    requires n <= |s|
    ensures Filter(s, p) == Filter(s[..n], p) + Filter(s[n..], p)
  {
    assert s == s[..n] + s[n..];
    FilterAppend(s[..n], s[n..], p);
  }

  lemma FilterNone(s: string, p: char -> bool)
    requires |s| == 1 && !p(s[0])
    ensures Filter(s, p) == []
  {
    assert s[..0] == [];
  }

  /** Filtering a sequence extended by one element. */
  lemma FilterSnoc<T>(s: seq<T>, x: T, p: T -> bool)
    ensures Filter(s + [x], p) == Filter(s, p) + (if p(x) then [x] else [])
  {
    assert (s + [x])[..|s + [x]| - 1] == s;
  }

  /** Every element lands in exactly one of `Filter(s, p)` and the filter by
      the negation, so their lengths add up to `|s|`. */
  lemma {:induction false} FilterPartition<T>(s: seq<T>, p: T -> bool, q: T -> bool)
    requires forall x | x in s :: q(x) == !p(x)
    ensures |Filter(s, p)| + |Filter(s, q)| == |s|
  {
    if s != [] {
      FilterPartition(s[..|s| - 1], p, q);
    }
  }

  /** Number of elements of `s` that satisfy `p`. */
  function CountIf<T>(s: seq<T>, p: T -> bool): (n: nat)
    ensures n == |Filter(s, p)|
  {
    if s == [] then 0 else CountIf(s[..|s| - 1], p) + (if p(s[|s| - 1]) then 1 else 0)
  }

  /** Concatenation of a sequence of strings. */
  function Concat(ss: seq<string>): string {
    if ss == [] then [] else ss[0] + Concat(ss[1..])
  }

  /** Length of the run of characters satisfying `inRun` at the front of `s`. */
  function RunLength(s: string, inRun: char -> bool): (n: nat)
    ensures n <= |s|
    ensures forall i | 0 <= i < n :: inRun(s[i])
    ensures n < |s| ==> !inRun(s[n])
  {
    if s == [] || !inRun(s[0]) then 0 else 1 + RunLength(s[1..], inRun)
  }

  /** The maximal runs of characters satisfying `inRun`, in order: what
      `re.findall` returns for a pattern `[class]+`. */
  function Runs(s: string, inRun: char -> bool): (r: seq<string>)
    ensures forall t | t in r :: |t| > 0 && forall c | c in t :: inRun(c) && c in s
    decreases |s|
  {
    if s == [] then []
    else if !inRun(s[0]) then Runs(s[1..], inRun)
    else
      var n := RunLength(s, inRun);
      [s[..n]] + Runs(s[n..], inRun)
  }

  /** The runs hold exactly the characters of `s` that satisfy `inRun`, in order. */
  lemma {:induction false} RunsCoverMatching(s: string, inRun: char -> bool)
    ensures Concat(Runs(s, inRun)) == Filter(s, inRun)
    decreases |s|
  {
    if s == [] {
    } else if !inRun(s[0]) {
      RunsCoverMatching(s[1..], inRun);
      FilterSplit(s, 1, inRun);
      FilterNone(s[..1], inRun);
    } else {
      var n := RunLength(s, inRun);
      RunsCoverMatching(s[n..], inRun);
      ConcatCons(s[..n], Runs(s[n..], inRun));
      FilterSplit(s, n, inRun);
      FilterAll(s[..n], inRun);
    }
  }

  lemma {:induction false} FilterAll<T>(s: seq<T>, p: T -> bool)
    requires forall i | 0 <= i < |s| :: p(s[i])
    ensures Filter(s, p) == s
  {
    if s != [] {
      FilterAll(s[..|s| - 1], p);
    }
  }

  /** Each position moved `d` places on. */
  function Shift(xs: seq<nat>, d: nat): (r: seq<nat>)
    ensures |r| == |xs|
    ensures forall i | 0 <= i < |xs| :: r[i] == xs[i] + d
  {
    seq(|xs|, i requires 0 <= i < |xs| => xs[i] + d)
  }

  /** The position in `s` where each run of `Runs(s, inRun)` starts. */
  function RunStarts(s: string, inRun: char -> bool): (r: seq<nat>)
    decreases |s|
  {
    if s == [] then []
    else if !inRun(s[0]) then Shift(RunStarts(s[1..], inRun), 1)
    else
      var n := RunLength(s, inRun);
      [0] + Shift(RunStarts(s[n..], inRun), n)
  }

  /** Whether `t` sits in `s` at `p` with no matching character just before
      or just after it. */
  predicate MaximalAt(s: string, t: string, p: nat, inRun: char -> bool) {
    && p + |t| <= |s|
    && s[p..p + |t|] == t
    && (p == 0 || !inRun(s[p - 1]))
    && (p + |t| == |s| || !inRun(s[p + |t|]))
  }

  /** `runs` sit in `s` at `starts`, each with no matching character on
      either side, and each ends before the next one starts. */
  predicate MaximalRuns(s: string, runs: seq<string>, starts: seq<nat>, inRun: char -> bool) {
    && |starts| == |runs|
    && (forall i | 0 <= i < |runs| :: MaximalAt(s, runs[i], starts[i], inRun))
    && (forall i | 0 <= i < |runs| - 1 :: starts[i] + |runs[i]| < starts[i + 1])
  }

  /** Runs of `s[n..]` are runs of `s`, `n` places on, as long as none of
      them starts right after a matching character at `n - 1`. */
  lemma ShiftRuns(s: string, n: nat, runs: seq<string>, starts: seq<nat>, inRun: char -> bool)
    requires n <= |s|
    requires MaximalRuns(s[n..], runs, starts, inRun)
    requires forall j | 0 <= j < |runs| :: starts[j] > 0 || n == 0 || !inRun(s[n - 1])
    ensures MaximalRuns(s, runs, Shift(starts, n), inRun)
  {
    var rest := s[n..];
    var shifted := Shift(starts, n);
    forall i | 0 <= i < |runs| ensures MaximalAt(s, runs[i], shifted[i], inRun) {
      var p := starts[i];
      var t := runs[i];
      assert MaximalAt(rest, t, p, inRun);
      assert rest[p..p + |t|] == s[p + n..p + n + |t|];
      if p > 0 {
        assert rest[p - 1] == s[p + n - 1];
      }
      if p + |t| < |rest| {
        assert rest[p + |t|] == s[p + n + |t|];
      }
    }
  }

  /** A run never starts at a position whose character does not match. */
  lemma StartsMatch(s: string, runs: seq<string>, starts: seq<nat>, inRun: char -> bool)
    requires MaximalRuns(s, runs, starts, inRun)
    requires forall t | t in runs :: |t| > 0 && forall c | c in t :: inRun(c)
    ensures forall j | 0 <= j < |runs| :: starts[j] < |s| && inRun(s[starts[j]])
  {
    forall j | 0 <= j < |runs| ensures starts[j] < |s| && inRun(s[starts[j]]) {
      var t := runs[j];
      assert t in runs;
      assert MaximalAt(s, t, starts[j], inRun);
      assert t[0] in t;
      assert s[starts[j]..starts[j] + |t|][0] == s[starts[j]];
    }
  }

  /** A maximal run at the front goes before runs that start after it ends. */
  lemma PrependRun(s: string, n: nat, runs: seq<string>, starts: seq<nat>, inRun: char -> bool)
    requires n <= |s|
    requires MaximalAt(s, s[..n], 0, inRun)
    requires MaximalRuns(s, runs, starts, inRun)
    requires |runs| > 0 ==> n < starts[0]
    ensures MaximalRuns(s, [s[..n]] + runs, [0] + starts, inRun)
  {
  }

  /** The runs are the maximal runs of `s`, in order. */
  lemma {:induction false} RunsMaximal(s: string, inRun: char -> bool)
    ensures MaximalRuns(s, Runs(s, inRun), RunStarts(s, inRun), inRun)
    decreases |s|
  {
    if s == [] {
    } else if !inRun(s[0]) {
      RunsMaximal(s[1..], inRun);
      ShiftRuns(s, 1, Runs(s[1..], inRun), RunStarts(s[1..], inRun), inRun);
    } else {
      var n := RunLength(s, inRun);
      var runs := Runs(s[n..], inRun);
      var starts := RunStarts(s[n..], inRun);
      RunsMaximal(s[n..], inRun);
      StartsMatch(s[n..], runs, starts, inRun);
      assert forall j | 0 <= j < |runs| :: starts[j] > 0 by {
        forall j | 0 <= j < |runs| ensures starts[j] > 0 {
          assert n < |s|;
          assert s[n..][0] == s[n];
        }
      }
      ShiftRuns(s, n, runs, starts, inRun);
      assert s[..n][..n] == s[..n];
      PrependRun(s, n, runs, Shift(starts, n), inRun);
    }
  }

  /** Decimal digits of a natural number (what an f-string prints for an int). */
  function DecimalNat(n: nat): (r: string)
    ensures |r| > 0
    ensures forall c | c in r :: '0' <= c <= '9'
  {
    if n < 10 then [('0' as int + n) as char]
    else DecimalNat(n / 10) + [('0' as int + n % 10) as char]
  }

  function Decimal(n: int): string {
    if n >= 0 then DecimalNat(n) else "-" + DecimalNat(-n)
  }
}
