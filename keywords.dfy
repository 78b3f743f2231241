/** The keyword ranker (`extract_top_keywords`): lower-case the page text,
    split it into word tokens, drop stop-words, count, and keep the fifteen
    most frequent words, equal counts in order of first occurrence. */
module Keywords {
  import opened Text

  const TopCount := 15

  /** A character matched by the regular expression class `\w` (ASCII letters,
      digits and underscore). */
  predicate IsWordChar(c: char) {
    'a' <= c <= 'z' || 'A' <= c <= 'Z' || '0' <= c <= '9' || c == '_'
  }

  /** `re.findall(r'\w+', text.lower())` */
  function Words(text: string): (r: seq<string>)
    ensures forall t | t in r :: |t| > 0 && forall c | c in t :: IsWordChar(c) && !IsUpper(c)
  {
    Runs(Lower(text), IsWordChar)
  }

  /** The tokens are what `\w+` finds in the lower-cased text: together
      they hold its word characters in order, and each is a maximal run of
      them. */
  lemma WordsTokenize(text: string)
    ensures Concat(Words(text)) == Filter(Lower(text), IsWordChar)
    ensures MaximalRuns(Lower(text), Words(text), RunStarts(Lower(text), IsWordChar), IsWordChar)
  {
    RunsCoverMatching(Lower(text), IsWordChar);
    RunsMaximal(Lower(text), IsWordChar);
  }

  function NotStop(stopWords: set<string>): string -> bool {
    w => w !in stopWords
  }

  /** The words that survive the stop-word filter, in order. */
  function Kept(words: seq<string>, stopWords: set<string>): (r: seq<string>)
    ensures forall w | w in r :: w in words && w !in stopWords
    ensures forall w | w in words && w !in stopWords :: w in r
  {
    Filter(words, NotStop(stopWords))
  }

  /** Number of occurrences of `w` in `ws`. */
  function Occurrences(ws: seq<string>, w: string): nat {
    if ws == [] then 0 else (if ws[0] == w then 1 else 0) + Occurrences(ws[1..], w)
  }

  lemma {:induction false} OccurrencesPositive(ws: seq<string>, w: string)
    requires w in ws
    ensures Occurrences(ws, w) >= 1
  {
    if ws[0] != w {
      OccurrencesPositive(ws[1..], w);
    }
  }

  /** The first word is kept or dropped on its own, ahead of the rest. */
  lemma KeptCons(words: seq<string>, stopWords: set<string>)
    requires words != []
    ensures Kept(words, stopWords) == (if words[0] in stopWords then [] else [words[0]]) + Kept(words[1..], stopWords)
  {
    assert words == [words[0]] + words[1..];
    FilterAppend([words[0]], words[1..], NotStop(stopWords));
    assert [words[0]][..0] == [];
  }

  /** Dropping stop words keeps every other word as often as it occurs. */
  lemma {:induction false} KeptCounts(words: seq<string>, stopWords: set<string>)
    ensures forall w | w !in stopWords :: Occurrences(Kept(words, stopWords), w) == Occurrences(words, w)
    ensures forall w | w in stopWords :: Occurrences(Kept(words, stopWords), w) == 0
    decreases |words|
  {
    if words != [] {
      var x := words[0];
      var rest := Kept(words[1..], stopWords);
      KeptCounts(words[1..], stopWords);
      KeptCons(words, stopWords);
      if x !in stopWords {
        assert ([x] + rest)[1..] == rest;
      }
      forall w ensures Occurrences(Kept(words, stopWords), w) == (if w in stopWords then 0 else Occurrences(words, w)) {
        assert Occurrences(words, w) == (if x == w then 1 else 0) + Occurrences(words[1..], w);
        if x !in stopWords {
          assert Kept(words, stopWords) == [x] + rest;
          assert Occurrences([x] + rest, w) == (if x == w then 1 else 0) + Occurrences(rest, w);
        } else {
          assert Kept(words, stopWords) == rest;
        }
        assert Occurrences(rest, w) == (if w in stopWords then 0 else Occurrences(words[1..], w));
      }
    }
  }

  /** Index of the first occurrence of `w` in `ws`, or `|ws|` when there is none. */
  function FirstIndex(ws: seq<string>, w: string): (i: nat)
    ensures i <= |ws|
    ensures i < |ws| <==> w in ws
    ensures i < |ws| ==> ws[i] == w
    ensures forall j | 0 <= j < i :: ws[j] != w
  {
    if ws == [] then 0 else if ws[0] == w then 0 else 1 + FirstIndex(ws[1..], w)
  }

  lemma FirstIndexCons(x: string, rest: seq<string>, w: string)
    ensures FirstIndex([x] + rest, w) == if x == w then 0 else 1 + FirstIndex(rest, w)
  {
    assert ([x] + rest)[1..] == rest;
  }

  /** Dropping stop words keeps the order in which the other words first
      occur. */
  lemma {:induction false} KeptOrder(words: seq<string>, stopWords: set<string>, u: string, v: string)
    requires u in words && v in words && u !in stopWords && v !in stopWords
    ensures FirstIndex(Kept(words, stopWords), u) < FirstIndex(Kept(words, stopWords), v) <==>
            FirstIndex(words, u) < FirstIndex(words, v)
    decreases |words|
  {
    var x, tail := words[0], words[1..];
    var rest := Kept(tail, stopWords);
    KeptCons(words, stopWords);
    assert words == [x] + tail;
    FirstIndexCons(x, tail, u);
    FirstIndexCons(x, tail, v);
    if x == u || x == v {
      assert Kept(words, stopWords) == [x] + rest;
      FirstIndexCons(x, rest, u);
      FirstIndexCons(x, rest, v);
    } else {
      assert u in tail && v in tail;
      KeptOrder(tail, stopWords, u, v);
      if x !in stopWords {
        assert Kept(words, stopWords) == [x] + rest;
        FirstIndexCons(x, rest, u);
        FirstIndexCons(x, rest, v);
      } else {
        assert Kept(words, stopWords) == rest;
      }
    }
  }

  /** The distinct words of `ws`. */
  function Distinct(ws: seq<string>): (d: seq<string>)
    ensures forall w :: w in d <==> w in ws
    ensures forall i, j | 0 <= i < j < |d| :: d[i] != d[j]
  {
    if ws == [] then []
    else
      var d := Distinct(ws[..|ws| - 1]);
      var last := ws[|ws| - 1];
      assert forall w :: w in ws <==> w in ws[..|ws| - 1] || w == last;
      if last in d then d else d + [last]
  }

  /** One counter entry: the word, its count and the index of its first occurrence. */
  datatype Entry = Entry(word: string, count: nat, first: nat)

  /** `Counter(ws)`: one entry per distinct word. */
  function Tally(ws: seq<string>): (r: seq<Entry>)
    ensures forall e | e in r :: e.word in ws && e.count == Occurrences(ws, e.word) && e.first == FirstIndex(ws, e.word)
    ensures forall w | w in ws :: Entry(w, Occurrences(ws, w), FirstIndex(ws, w)) in r
    ensures forall i, j | 0 <= i < j < |r| :: r[i].first != r[j].first
    ensures |r| == |Distinct(ws)|
  {
    var d := Distinct(ws);
    var r := seq(|d|, i requires 0 <= i < |d| => Entry(d[i], Occurrences(ws, d[i]), FirstIndex(ws, d[i])));
    assert forall w | w in ws :: exists i :: 0 <= i < |d| && d[i] == w && r[i] == Entry(w, Occurrences(ws, w), FirstIndex(ws, w));
    r
  }

  /** `a` comes before `b` in `most_common` order: higher count first, and on
      equal counts the word seen first. */
  predicate Before(a: Entry, b: Entry) {
    a.count > b.count || (a.count == b.count && a.first < b.first)
  }

  predicate Ranked(s: seq<Entry>) {
    forall i, j | 0 <= i < j < |s| :: Before(s[i], s[j])
  }

  function Insert(x: Entry, s: seq<Entry>): (r: seq<Entry>)
    ensures multiset(r) == multiset(s) + multiset{x}
  {
    if s == [] || Before(x, s[0]) then [x] + s
    else
      assert s == [s[0]] + s[1..];
      [s[0]] + Insert(x, s[1..])
  }

  function Rank(s: seq<Entry>): (r: seq<Entry>)
    ensures multiset(r) == multiset(s)
  {
    if s == [] then []
    else
      assert s == [s[0]] + s[1..];
      Insert(s[0], Rank(s[1..]))
  }

  lemma {:induction false} InsertRanked(x: Entry, s: seq<Entry>)
    requires Ranked(s)
    requires forall y | y in s :: y.first != x.first
    ensures Ranked(Insert(x, s))
  {
    if s == [] || Before(x, s[0]) {
      var r := [x] + s;
      forall i, j | 0 <= i < j < |r| ensures Before(r[i], r[j]) {
        if i == 0 && j > 1 {
          assert Before(s[0], s[j - 1]);
        }
      }
    } else {
      assert s[0] in s;
      InsertRanked(x, s[1..]);
      var t := Insert(x, s[1..]);
      var r := [s[0]] + t;
      forall j | 0 <= j < |t| ensures Before(s[0], t[j]) {
        assert t[j] in multiset(t);
        if t[j] != x {
          assert t[j] in multiset(s[1..]);
          var k :| 0 <= k < |s[1..]| && s[1..][k] == t[j];
          assert Before(s[0], s[k + 1]);
        }
      }
    }
  }

  lemma {:induction false} RankRanked(s: seq<Entry>)
    requires forall i, j | 0 <= i < j < |s| :: s[i].first != s[j].first
    ensures Ranked(Rank(s))
  {
    if s != [] {
      RankRanked(s[1..]);
      forall y | y in Rank(s[1..]) ensures y.first != s[0].first {
        assert y in multiset(Rank(s[1..]));
        var k :| 0 <= k < |s[1..]| && s[1..][k] == y;
      }
      InsertRanked(s[0], Rank(s[1..]));
    }
  }

  /** `Counter(ws).most_common(n)` */
  function MostCommon(ws: seq<string>, n: nat): (r: seq<(string, nat)>)
    ensures |r| <= n
  {
    var ranked := Rank(Tally(ws));
    var top := if |ranked| <= n then ranked else ranked[..n];
    seq(|top|, i requires 0 <= i < |top| => (top[i].word, top[i].count))
  }

  /** `extract_top_keywords`: the fifteen most frequent non-stop-words of the text. */
  function TopKeywords(text: string, stopWords: set<string>): seq<(string, nat)> {
    MostCommon(Kept(Words(text), stopWords), TopCount)
  }

  /** Every element of `MostCommon(ws, n)` is a position of the ranked counter. */
  lemma MostCommonIsRankedPrefix(ws: seq<string>, n: nat)
    ensures var ranked := Rank(Tally(ws));
            && |MostCommon(ws, n)| == (if |ranked| <= n then |ranked| else n)
            && forall i | 0 <= i < |MostCommon(ws, n)| ::
                 MostCommon(ws, n)[i] == (ranked[i].word, ranked[i].count)
  {
  }

  /** Facts about the ranked counter shared by the lemmas below. */
  lemma {:induction false} RankedTally(ws: seq<string>)
    ensures var ranked := Rank(Tally(ws));
            && |ranked| == |Distinct(ws)|
            && Ranked(ranked)
            && (forall i | 0 <= i < |ranked| :: ranked[i] in Tally(ws))
            && (forall w | w in ws :: Entry(w, Occurrences(ws, w), FirstIndex(ws, w)) in ranked)
  {
    var tally := Tally(ws);
    var ranked := Rank(tally);
    RankRanked(tally);
    assert |ranked| == |tally| by {
      assert |multiset(ranked)| == |multiset(tally)|;
    }
    forall i | 0 <= i < |ranked| ensures ranked[i] in tally {
      assert ranked[i] in multiset(ranked);
    }
    forall w | w in ws ensures Entry(w, Occurrences(ws, w), FirstIndex(ws, w)) in ranked {
      assert Entry(w, Occurrences(ws, w), FirstIndex(ws, w)) in multiset(tally);
    }
  }

  /** `most_common(n)` lists `n` words, or every distinct word when there are fewer. */
  lemma MostCommonLength(ws: seq<string>, n: nat)
    ensures |MostCommon(ws, n)| == (if |Distinct(ws)| <= n then |Distinct(ws)| else n)
  {
    RankedTally(ws);
  }

  /** Each listed word occurs in `ws`, with its exact count, and no word is listed twice. */
  lemma MostCommonCounts(ws: seq<string>, n: nat)
    ensures var r := MostCommon(ws, n);
            && (forall i | 0 <= i < |r| :: r[i].0 in ws && r[i].1 == Occurrences(ws, r[i].0) && r[i].1 >= 1)
            && (forall i, j | 0 <= i < j < |r| :: r[i].0 != r[j].0)
  {
    RankedTally(ws);
    var ranked := Rank(Tally(ws));
    var r := MostCommon(ws, n);
    forall i | 0 <= i < |r| ensures r[i].0 in ws && r[i].1 == Occurrences(ws, r[i].0) && r[i].1 >= 1 {
      assert ranked[i] in Tally(ws);
      OccurrencesPositive(ws, ranked[i].word);
    }
    forall i, j | 0 <= i < j < |r| ensures r[i].0 != r[j].0 {
      assert Before(ranked[i], ranked[j]);
      assert ranked[i] in Tally(ws) && ranked[j] in Tally(ws);
    }
  }

  /** Listed words come in non-increasing count order, equal counts in order of first occurrence. */
  lemma MostCommonOrder(ws: seq<string>, n: nat)
    ensures var r := MostCommon(ws, n);
            forall i, j | 0 <= i < j < |r| ::
              r[i].1 > r[j].1 || (r[i].1 == r[j].1 && FirstIndex(ws, r[i].0) < FirstIndex(ws, r[j].0))
  {
    RankedTally(ws);
    var ranked := Rank(Tally(ws));
    var r := MostCommon(ws, n);
    forall i, j | 0 <= i < j < |r|
      ensures r[i].1 > r[j].1 || (r[i].1 == r[j].1 && FirstIndex(ws, r[i].0) < FirstIndex(ws, r[j].0))
    {
      assert Before(ranked[i], ranked[j]);
      assert ranked[i] in Tally(ws) && ranked[j] in Tally(ws);
    }
  }

  /** A word of `ws` that is not listed is only missing because `n` words
      outrank it: each listed word has a higher count, or the same count and
      an earlier first occurrence. */
  lemma MostCommonComplete(ws: seq<string>, n: nat, w: string)
    requires w in ws
    requires forall i | 0 <= i < |MostCommon(ws, n)| :: MostCommon(ws, n)[i].0 != w
    ensures var r := MostCommon(ws, n);
            && |r| == n
            && forall i | 0 <= i < |r| ::
                 r[i].1 > Occurrences(ws, w) || (r[i].1 == Occurrences(ws, w) && FirstIndex(ws, r[i].0) < FirstIndex(ws, w))
  {
    RankedTally(ws);
    MostCommonIsRankedPrefix(ws, n);
    var ranked := Rank(Tally(ws));
    var r := MostCommon(ws, n);
    var e := Entry(w, Occurrences(ws, w), FirstIndex(ws, w));
    assert e in ranked;
    var k :| 0 <= k < |ranked| && ranked[k] == e;
    assert k >= |r| by {
      forall i | 0 <= i < |r| ensures ranked[i] != e {
        assert r[i].0 == ranked[i].word;
      }
    }
    assert |r| == n;
    forall i | 0 <= i < |r|
      ensures r[i].1 > Occurrences(ws, w) || (r[i].1 == Occurrences(ws, w) && FirstIndex(ws, r[i].0) < FirstIndex(ws, w))
    {
      assert Before(ranked[i], ranked[k]);
      assert ranked[i] in Tally(ws);
      assert r[i] == (ranked[i].word, ranked[i].count);
    }
  }

  /** What `extract_top_keywords` promises: at most fifteen pairs,
      each a lower-case `\w+` token of the text that is not a stop-word, with
      its exact count among the kept words, ranked by count with ties in
      order of first occurrence, and no kept word missing that outranks a
      listed one. */
  lemma TopKeywordsSpec(text: string, stopWords: set<string>)
    ensures var kept := Kept(Words(text), stopWords);
            var r := TopKeywords(text, stopWords);
            && |r| <= TopCount
            && (forall i | 0 <= i < |r| ::
                  && r[i].0 in Words(text) && r[i].0 !in stopWords
                  && |r[i].0| > 0 && (forall c | c in r[i].0 :: IsWordChar(c) && !IsUpper(c))
                  && r[i].1 == Occurrences(kept, r[i].0) && r[i].1 >= 1)
            && (forall i, j | 0 <= i < j < |r| :: r[i].0 != r[j].0)
            && (forall i, j | 0 <= i < j < |r| :: r[i].1 >= r[j].1)
            && (forall i, j | 0 <= i < j < |r| && r[i].1 == r[j].1 ::
                  FirstIndex(kept, r[i].0) < FirstIndex(kept, r[j].0))
            && (forall w | w in kept && (forall i | 0 <= i < |r| :: r[i].0 != w) ::
                  |r| == TopCount && forall i | 0 <= i < |r| :: r[i].1 >= Occurrences(kept, w))
  {
    var kept := Kept(Words(text), stopWords);
    var r := TopKeywords(text, stopWords);
    MostCommonCounts(kept, TopCount);
    MostCommonOrder(kept, TopCount);
    forall w | w in kept && (forall i | 0 <= i < |r| :: r[i].0 != w)
      ensures |r| == TopCount && forall i | 0 <= i < |r| :: r[i].1 >= Occurrences(kept, w)
    {
      MostCommonComplete(kept, TopCount, w);
    }
  }

  /** The same ranking read off the text's own tokens: each listed word's
      count is its number of occurrences among all `\w+` tokens of the text,
      and equal counts are listed in order of first occurrence in the text. */
  lemma TopKeywordsOfText(text: string, stopWords: set<string>)
    ensures var ws := Words(text);
            var r := TopKeywords(text, stopWords);
            && (forall i | 0 <= i < |r| :: r[i].1 == Occurrences(ws, r[i].0))
            && (forall i, j | 0 <= i < j < |r| && r[i].1 == r[j].1 ::
                  FirstIndex(ws, r[i].0) < FirstIndex(ws, r[j].0))
  {
    var ws := Words(text);
    var r := TopKeywords(text, stopWords);
    TopKeywordsSpec(text, stopWords);
    KeptCounts(ws, stopWords);
    forall i, j | 0 <= i < j < |r| && r[i].1 == r[j].1
      ensures FirstIndex(ws, r[i].0) < FirstIndex(ws, r[j].0)
    {
      KeptOrder(ws, stopWords, r[i].0, r[j].0);
    }
  }
}
