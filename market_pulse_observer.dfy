/**
  The trend analysis of the market-pulse skill. Trends are headlines
  collected from several sites; their topics are the known finance and
  technology keywords found in the lower-cased titles plus the most frequent
  two- and three-word phrases. Against the topics recorded by an earlier
  run, the analysis reports new and vanished topics, the headlines that
  first carry a new topic, and a signal strength from 1 to 5.

  Python sets have no defined order; where the code lists a set, this model
  lists its members in order of first occurrence.
 */
module MarketPulse {
  import opened Values
  import opened Text

  datatype TrendItem = TrendItem(title: string, source: string, url: string, timestamp: string, category: Option<string>)

  /** What an earlier run recorded: its date, its trends and its topics. */
  datatype HistoricalData = HistoricalData(date: string, trends: seq<TrendItem>, topics: seq<string>)

  const Keywords: seq<string> := [
    "ai", "artificial intelligence", "machine learning",
    "crypto", "bitcoin", "ethereum", "blockchain",
    "stock", "market", "trading", "investment",
    "fed", "federal reserve", "interest rate",
    "inflation", "recession", "economy",
    "tech", "technology", "startup", "ipo",
    "regulation", "policy", "government"
  ]

  const FirstRunText := "首次运行，无历史数据可比较"
  const NewTopicsPrefix := "新出现的主题: "
  const GoneTopicsPrefix := "消失的主题: "

  // ---------------------------------------------------------------------------
  // Sequence helpers

  predicate NoDups(xs: seq<string>) {
    forall i, j :: 0 <= i < j < |xs| ==> xs[i] != xs[j]
  }

  /** How often `x` occurs in `xs`, as a `Counter` counts it. */
  function Count(xs: seq<string>, x: string): nat {
    multiset(xs)[x]
  }

  /** The members of `xs`, each once, in order of first occurrence. */
  function Distinct(xs: seq<string>): (d: seq<string>)
    ensures |d| <= |xs|
    decreases |xs|
  {
    if xs == [] then []
    else
      var d := Distinct(xs[..|xs| - 1]);
      if xs[|xs| - 1] in d then d else d + [xs[|xs| - 1]]
  }

  /** The distinct members are those of `xs`, each once. */
  lemma {:induction false} DistinctSpec(xs: seq<string>)
    ensures forall x :: x in Distinct(xs) <==> x in xs
    ensures NoDups(Distinct(xs))
    decreases |xs|
  {
    if xs != [] {
      var init := xs[..|xs| - 1];
      DistinctSpec(init);
      assert xs == init + [xs[|xs| - 1]];
    }
  }

  lemma {:induction false} DistinctOfDistinct(xs: seq<string>)
    requires NoDups(xs)
    ensures Distinct(xs) == xs
    decreases |xs|
  {
    if xs != [] {
      var init := xs[..|xs| - 1];
      assert NoDups(init);
      DistinctOfDistinct(init);
      assert xs[|xs| - 1] !in init;
      assert init + [xs[|xs| - 1]] == xs;
    }
  }

  /** A member of a sequence without repetitions occurs in it once. */
  lemma {:induction false} CountOnce(xs: seq<string>, x: string)
    requires NoDups(xs) && x in xs
    ensures Count(xs, x) == 1
    decreases |xs|
  {
    var init := xs[..|xs| - 1];
    assert xs == init + [xs[|xs| - 1]];
    assert NoDups(init);
    if x == xs[|xs| - 1] {
      assert x !in init;
    } else {
      CountOnce(init, x);
    }
  }

  /** A sequence without repetitions has exactly as many elements as the set of its members. */
  lemma {:induction false} NoDupsCard(xs: seq<string>, s: set<string>)
    requires NoDups(xs) && forall t :: t in xs <==> t in s
    ensures |s| == |xs|
    decreases |xs|
  {
    if xs != [] {
      var init := xs[..|xs| - 1];
      var last := xs[|xs| - 1];
      assert xs == init + [last];
      assert NoDups(init) && last !in init;
      assert last in s;
      forall t
        ensures t in init <==> t in s - {last}
      {
        if t in init {
          assert t in xs;
        }
        if t in s - {last} {
          assert t in xs;
        }
      }
      NoDupsCard(init, s - {last});
    }
  }

  /** The members of `xs` that are not in `ys`, in the order of `xs`. */
  function Minus(xs: seq<string>, ys: seq<string>): (r: seq<string>)
    ensures |r| <= |xs|
    decreases |xs|
  {
    if xs == [] then []
    else
      var last := xs[|xs| - 1];
      Minus(xs[..|xs| - 1], ys) + (if last in ys then [] else [last])
  }

  /** The difference holds the members of `xs` not in `ys`, without repetitions when `xs` has none. */
  lemma {:induction false} MinusSpec(xs: seq<string>, ys: seq<string>)
    ensures forall t :: t in Minus(xs, ys) <==> t in xs && t !in ys
    ensures NoDups(xs) ==> NoDups(Minus(xs, ys))
    decreases |xs|
  {
    if xs != [] {
      var init := xs[..|xs| - 1];
      var last := xs[|xs| - 1];
      MinusSpec(init, ys);
      assert xs == init + [last];
      assert NoDups(xs) ==> NoDups(init) && last !in init;
    }
  }

  // ---------------------------------------------------------------------------
  // Words, phrases and the frequency ranking

  /** The lower-cased titles joined by spaces, which the keywords are looked up in. */
  function AllText(trends: seq<TrendItem>): string {
    Lower(Join(" ", seq(|trends|, i requires 0 <= i < |trends| => trends[i].title)))
  }

  /** `re.findall(r'\b\w+\b', text)`: the maximal runs of word characters, left to right. */
  function Words(text: string): seq<string>
    decreases |text|
  {
    if text == [] then []
    else if !IsWordChar(text[0]) then Words(text[1..])
    else
      var n := LeadingIn(text, IsWordChar);
      [text[..n]] + Words(text[n..])
  }

  /** Every word is a non-empty run of word characters. */
  lemma {:induction false} WordsAreRuns(text: string)
    ensures forall w :: w in Words(text) ==> w != [] && forall c :: c in w ==> IsWordChar(c)
    decreases |text|
  {
    if text != [] {
      if !IsWordChar(text[0]) {
        WordsAreRuns(text[1..]);
      } else {
        var n := LeadingIn(text, IsWordChar);
        assert forall c :: c in text[..n] ==> IsWordChar(c);
        WordsAreRuns(text[n..]);
      }
    }
  }

  /** Every two neighbouring words joined by a space, then every three. */
  function Phrases(ws: seq<string>): (ps: seq<string>)
    ensures |ps| == (if |ws| >= 2 then |ws| - 1 else 0) + (if |ws| >= 3 then |ws| - 2 else 0)
  {
    var bigrams := if |ws| < 2 then [] else seq(|ws| - 1, i requires 0 <= i < |ws| - 1 => ws[i] + " " + ws[i + 1]);
    var trigrams := if |ws| < 3 then [] else seq(|ws| - 2, i requires 0 <= i < |ws| - 2 => ws[i] + " " + ws[i + 1] + " " + ws[i + 2]);
    bigrams + trigrams
  }

  /** Counts do not increase along `s`. */
  ghost predicate Descending(s: seq<string>, xs: seq<string>) {
    forall i, j :: 0 <= i < j < |s| ==> Count(xs, s[i]) >= Count(xs, s[j])
  }

  /** Insertion after every element counted at least as often as `x`, which keeps equal counts in arrival order. */
  function InsertByCount(sorted: seq<string>, x: string, xs: seq<string>): seq<string>
    decreases |sorted|
  {
    if sorted == [] then [x]
    else if Count(xs, sorted[0]) >= Count(xs, x) then [sorted[0]] + InsertByCount(sorted[1..], x, xs)
    else [x] + sorted
  }

  /** Insertion adds exactly `x`. */
  lemma {:induction false} InsertByCountAdds(sorted: seq<string>, x: string, xs: seq<string>)
    ensures multiset(InsertByCount(sorted, x, xs)) == multiset(sorted) + multiset{x}
    ensures forall y :: y in InsertByCount(sorted, x, xs) ==> y in sorted || y == x
    decreases |sorted|
  {
    if sorted != [] {
      assert sorted == [sorted[0]] + sorted[1..];
      InsertByCountAdds(sorted[1..], x, xs);
    }
  }

  lemma {:induction false} InsertKeepsDescending(sorted: seq<string>, x: string, xs: seq<string>)
    requires Descending(sorted, xs)
    ensures Descending(InsertByCount(sorted, x, xs), xs)
    decreases |sorted|
  {
    if sorted != [] {
      var s0 := sorted[0];
      var tail := sorted[1..];
      assert Descending(tail, xs);
      assert forall y :: y in tail ==> Count(xs, y) <= Count(xs, s0);
      if Count(xs, s0) >= Count(xs, x) {
        InsertKeepsDescending(tail, x, xs);
        InsertByCountAdds(tail, x, xs);
      }
    }
  }

  /** `sorted(items, key=count, reverse=True)`: a stable sort by descending count. */
  function RankSort(items: seq<string>, xs: seq<string>): seq<string>
    decreases |items|
  {
    if items == [] then []
    else InsertByCount(RankSort(items[..|items| - 1], xs), items[|items| - 1], xs)
  }

  /** Ranking permutes the items into descending count. */
  lemma {:induction false} RankSortSorts(items: seq<string>, xs: seq<string>)
    ensures multiset(RankSort(items, xs)) == multiset(items)
    ensures forall y :: y in RankSort(items, xs) <==> y in items
    ensures Descending(RankSort(items, xs), xs)
    decreases |items|
  {
    if items != [] {
      var last := items[|items| - 1];
      assert items == items[..|items| - 1] + [last];
      RankSortSorts(items[..|items| - 1], xs);
      var init := RankSort(items[..|items| - 1], xs);
      InsertKeepsDescending(init, last, xs);
      InsertByCountAdds(init, last, xs);
      assert forall y :: y in items <==> y in multiset(init) + multiset{last};
    }
  }

  /** When every element is counted equally often, ranking keeps the order. */
  lemma {:induction false} RankSortEqualCounts(items: seq<string>, xs: seq<string>, c: nat)
    requires forall i :: 0 <= i < |items| ==> Count(xs, items[i]) == c
    ensures RankSort(items, xs) == items
    decreases |items|
  {
    if items != [] {
      var init := items[..|items| - 1];
      RankSortEqualCounts(init, xs, c);
      InsertAfterEqual(init, items[|items| - 1], xs);
      assert init + [items[|items| - 1]] == items;
    }
  }

  lemma {:induction false} InsertAfterEqual(sorted: seq<string>, x: string, xs: seq<string>)
    requires forall i :: 0 <= i < |sorted| ==> Count(xs, sorted[i]) >= Count(xs, x)
    ensures InsertByCount(sorted, x, xs) == sorted + [x]
    decreases |sorted|
  {
    if sorted != [] {
      InsertAfterEqual(sorted[1..], x, xs);
      assert sorted == [sorted[0]] + sorted[1..];
    }
  }

  /** `Counter(xs).most_common(n)` */
  function MostCommon(xs: seq<string>, n: nat): (r: seq<(string, nat)>)
    ensures |r| <= n
  {
    var top := Take(Ranked(xs), n);
    seq(|top|, i requires 0 <= i < |top| => (top[i], Count(xs, top[i])))
  }

  /** The ranking `MostCommon` takes its first `n` entries from. */
  function Ranked(xs: seq<string>): seq<string> {
    RankSort(Distinct(xs), xs)
  }

  lemma MostCommonIsPrefix(xs: seq<string>, n: nat)
    ensures var r := MostCommon(xs, n); var ranked := Ranked(xs);
      && |r| == (if |ranked| <= n then |ranked| else n)
      && forall i :: 0 <= i < |r| ==> r[i] == (ranked[i], Count(xs, ranked[i]))
  {
  }

  /** The most common elements are elements of `xs` with their counts, by descending count. */
  lemma MostCommonCounts(xs: seq<string>, n: nat)
    ensures var r := MostCommon(xs, n);
      && (forall i :: 0 <= i < |r| ==> r[i].0 in xs && r[i].1 == Count(xs, r[i].0))
      && (forall i, j :: 0 <= i < j < |r| ==> r[i].1 >= r[j].1)
  {
    var ranked := Ranked(xs);
    var r := MostCommon(xs, n);
    MostCommonIsPrefix(xs, n);
    DistinctSpec(xs);
    RankSortSorts(Distinct(xs), xs);
    forall i | 0 <= i < |r|
      ensures r[i].0 in xs
    {
      assert ranked[i] in ranked;
    }
    forall i, j | 0 <= i < j < |r|
      ensures r[i].1 >= r[j].1
    {
      assert Count(xs, ranked[i]) >= Count(xs, ranked[j]);
    }
  }

  /** No element left out is counted more often than one kept. */
  lemma MostCommonIsTop(xs: seq<string>, n: nat)
    ensures var r := MostCommon(xs, n);
      forall x :: x in xs && (forall i :: 0 <= i < |r| ==> r[i].0 != x) ==>
        forall i :: 0 <= i < |r| ==> r[i].1 >= Count(xs, x)
  {
    var ranked := Ranked(xs);
    var r := MostCommon(xs, n);
    MostCommonIsPrefix(xs, n);
    DistinctSpec(xs);
    RankSortSorts(Distinct(xs), xs);
    forall x, i | x in xs && (forall k :: 0 <= k < |r| ==> r[k].0 != x) && 0 <= i < |r|
      ensures r[i].1 >= Count(xs, x)
    {
      var j :| 0 <= j < |ranked| && ranked[j] == x;
      assert i < j;
      assert Count(xs, ranked[i]) >= Count(xs, ranked[j]);
    }
  }

  /** When fewer than `n` entries are returned, every element of `xs` is among them. */
  lemma MostCommonIsComplete(xs: seq<string>, n: nat)
    ensures var r := MostCommon(xs, n);
      |r| < n ==> forall x :: x in xs ==> exists i :: 0 <= i < |r| && r[i].0 == x
  {
    var ranked := Ranked(xs);
    var r := MostCommon(xs, n);
    MostCommonIsPrefix(xs, n);
    DistinctSpec(xs);
    RankSortSorts(Distinct(xs), xs);
    if |r| < n {
      forall x | x in xs
        ensures exists i :: 0 <= i < |r| && r[i].0 == x
      {
        var j :| 0 <= j < |ranked| && ranked[j] == x;
        assert r[j].0 == x;
      }
    }
  }

  /** The phrases of `mc` counted at least twice, in ranking order. */
  function CountedTwice(mc: seq<(string, nat)>): seq<string>
    decreases |mc|
  {
    if mc == [] then []
    else
      var last := mc[|mc| - 1];
      CountedTwice(mc[..|mc| - 1]) + (if last.1 >= 2 then [last.0] else [])
  }

  /** Exactly the entries counted at least twice are kept. */
  lemma {:induction false} CountedTwiceKeeps(mc: seq<(string, nat)>)
    ensures forall p :: p in CountedTwice(mc) <==> exists i :: 0 <= i < |mc| && mc[i].0 == p && mc[i].1 >= 2
    decreases |mc|
  {
    if mc != [] {
      CountedTwiceKeeps(mc[..|mc| - 1]);
      assert forall i :: 0 <= i < |mc| - 1 ==> mc[..|mc| - 1][i] == mc[i];
    }
  }

  /** The phrase topics: of the ten most common phrases, the first five counted at least twice. */
  function PhraseTopics(text: string): (ps: seq<string>)
    ensures |ps| <= 5
  {
    Take(CountedTwice(MostCommon(Phrases(Words(text)), 10)), 5)
  }

  /** Each phrase topic is a two- or three-word phrase of the text that occurs at least twice and ranks among the ten most common. */
  lemma PhraseTopicsShape(text: string)
    ensures var phrases := Phrases(Words(text)); var mc := MostCommon(phrases, 10);
      forall p :: p in PhraseTopics(text) ==>
        && p in phrases
        && Count(phrases, p) >= 2
        && exists i :: 0 <= i < |mc| && mc[i].0 == p
  {
    TopTwiceShape(Phrases(Words(text)));
  }

  /** The first five of the ten most common entries counted at least twice are entries counted at least twice among the ten most common. */
  lemma TopTwiceShape(phrases: seq<string>)
    ensures var mc := MostCommon(phrases, 10);
      forall p :: p in Take(CountedTwice(mc), 5) ==>
        && p in phrases
        && Count(phrases, p) >= 2
        && exists i :: 0 <= i < |mc| && mc[i].0 == p
  {
    var mc := MostCommon(phrases, 10);
    MostCommonCounts(phrases, 10);
    var common := CountedTwice(mc);
    CountedTwiceKeeps(mc);
    assert forall p :: p in Take(common, 5) ==> p in common;
  }

  /** The keywords of `ks` that occur in `text`, in the order of `ks`. */
  function FoundIn(text: string, ks: seq<string>): (r: seq<string>)
    decreases |ks|
  {
    if ks == [] then []
    else FoundIn(text, ks[..|ks| - 1]) + (if Contains(text, ks[|ks| - 1]) then [ks[|ks| - 1]] else [])
  }

  /** The keywords found are exactly those of `ks` that occur in the text, at most one for each keyword. */
  lemma {:induction false} FoundInShape(text: string, ks: seq<string>)
    ensures forall k :: k in FoundIn(text, ks) <==> k in ks && Contains(text, k)
    ensures |FoundIn(text, ks)| <= |ks|
    decreases |ks|
  {
    if ks != [] {
      var init := ks[..|ks| - 1];
      FoundInShape(text, init);
      assert ks == init + [ks[|ks| - 1]];
    }
  }

  /** The topics of a text: the keywords found in it and its phrase topics, each once. */
  function TopicsOf(text: string): seq<string> {
    Distinct(FoundIn(text, Keywords) + PhraseTopics(text))
  }

  /** `extract_topics` as a value. */
  function Topics(trends: seq<TrendItem>): seq<string> {
    TopicsOf(AllText(trends))
  }

  /**
    The topics are without repetition; a keyword is a topic exactly when it
    occurs in the lower-cased titles or is itself a phrase topic; every other
    topic is one of at most five phrases that occur at least twice and rank
    among the ten most common.
   */
  lemma TopicsShape(trends: seq<TrendItem>)
    ensures var text := AllText(trends); var ts := Topics(trends);
      && NoDups(ts)
      && |ts| <= |Keywords| + 5
      && (forall k :: k in Keywords ==> (k in ts <==> Contains(text, k) || k in PhraseTopics(text)))
      && (forall t :: t in ts ==> (t in Keywords && Contains(text, t)) || t in PhraseTopics(text))
      && |PhraseTopics(text)| <= 5
  {
    var text := AllText(trends);
    FoundInShape(text, Keywords);
    DistinctSpec(FoundIn(text, Keywords) + PhraseTopics(text));
  }

  /** `extract_topics`: the keyword scan is a loop over the keyword list. */
  method ExtractTopics(trends: seq<TrendItem>) returns (topics: seq<string>)
    ensures topics == Topics(trends)
  {
    var allText := AllText(trends);
    var found: seq<string> := [];
    for i := 0 to |Keywords|
      invariant found == FoundIn(allText, Keywords[..i])
    {
      assert Keywords[..i + 1][..i] == Keywords[..i];
      if Contains(allText, Keywords[i]) {
        found := found + [Keywords[i]];
      }
    }
    assert Keywords[..|Keywords|] == Keywords;
    found := found + PhraseTopics(allText);
    topics := Distinct(found);
  }

  // ---------------------------------------------------------------------------
  // Narrative shifts and recurring topics

  lemma TopicsNoDups(trends: seq<TrendItem>)
    ensures NoDups(Topics(trends))
  {
    var text := AllText(trends);
    DistinctSpec(FoundIn(text, Keywords) + PhraseTopics(text));
  }

  /** The current topics absent from the earlier run, in current order. */
  function NewTopics(current: seq<TrendItem>, h: HistoricalData): seq<string> {
    Minus(Topics(current), h.topics)
  }

  /** `line` is `prefix` followed by min(5, |s|) distinct members of `s`, comma-separated. */
  ghost predicate ListsTopics(line: string, prefix: string, s: set<string>) {
    exists l: seq<string> :: line == prefix + Join(", ", l) && |l| == (if |s| < 5 then |s| else 5) && NoDups(l) && forall t :: t in l ==> t in s
  }

  /** The shift lines between the current topics `cur` and the earlier topics `before`. */
  function ShiftsBetween(cur: seq<string>, before: seq<string>): seq<string> {
    var added := Minus(cur, before);
    var gone := Distinct(Minus(before, cur));
    (if added != [] then [NewTopicsPrefix + Join(", ", Take(added, 5))] else [])
    + (if gone != [] then [GoneTopicsPrefix + Join(", ", Take(gone, 5))] else [])
  }

  /** `detect_narrative_shifts` */
  function DetectNarrativeShifts(current: seq<TrendItem>, historical: Option<HistoricalData>): seq<string> {
    match historical
    case None => [FirstRunText]
    case Some(h) => ShiftsBetween(Topics(current), h.topics)
  }

  /** A list without repetitions of the members of `s` is empty exactly when `s` is, and its first five, listed after `prefix`, list `s`. */
  lemma ShiftLineLists(xs: seq<string>, s: set<string>, prefix: string)
    requires NoDups(xs) && forall t :: t in xs <==> t in s
    ensures xs == [] <==> s == {}
    ensures xs != [] ==> ListsTopics(prefix + Join(", ", Take(xs, 5)), prefix, s)
  {
    NoDupsCard(xs, s);
    if xs != [] {
      assert xs[0] in s;
      var l := Take(xs, 5);
      assert forall t :: t in l ==> t in xs;
      assert NoDups(l);
    } else {
      assert forall t :: t !in s;
    }
  }

  /**
    There is one line for the topics that appeared and one for those that
    vanished, each present exactly when that set difference is non-empty and
    naming five of its members, or all of them when there are fewer.
   */
  lemma ShiftsBetweenShape(cur: seq<string>, before: seq<string>)
    requires NoDups(cur)
    ensures var shifts := ShiftsBetween(cur, before);
      var added := set t | t in cur && t !in before;
      var gone := set t | t in before && t !in cur;
      && |shifts| == (if added != {} then 1 else 0) + (if gone != {} then 1 else 0)
      && (added != {} ==> ListsTopics(shifts[0], NewTopicsPrefix, added))
      && (gone != {} ==> ListsTopics(shifts[|shifts| - 1], GoneTopicsPrefix, gone))
  {
    var added := set t | t in cur && t !in before;
    var gone := set t | t in before && t !in cur;
    MinusSpec(cur, before);
    MinusSpec(before, cur);
    DistinctSpec(Minus(before, cur));
    ShiftLineLists(Minus(cur, before), added, NewTopicsPrefix);
    ShiftLineLists(Distinct(Minus(before, cur)), gone, GoneTopicsPrefix);
  }

  /** Without an earlier run the shifts are one fixed message; otherwise they compare the current topics with the recorded ones. */
  lemma NarrativeShiftsShape(current: seq<TrendItem>, historical: Option<HistoricalData>)
    ensures historical.None? ==> DetectNarrativeShifts(current, historical) == [FirstRunText]
    ensures historical.Some? ==>
      var shifts := DetectNarrativeShifts(current, historical);
      var cur := Topics(current);
      var before := historical.value.topics;
      var added := set t | t in cur && t !in before;
      var gone := set t | t in before && t !in cur;
      && |shifts| == (if added != {} then 1 else 0) + (if gone != {} then 1 else 0)
      && (added != {} ==> ListsTopics(shifts[0], NewTopicsPrefix, added))
      && (gone != {} ==> ListsTopics(shifts[|shifts| - 1], GoneTopicsPrefix, gone))
  {
    if historical.Some? {
      TopicsNoDups(current);
      ShiftsBetweenShape(Topics(current), historical.value.topics);
    }
  }

  /** `find_recurring_topics` */
  function FindRecurringTopics(trends: seq<TrendItem>): seq<(string, nat)> {
    MostCommon(Topics(trends), 10)
  }

  /**
    The topics are already without repetition, so every count is 1 and the
    recurring topics are simply the first ten topics.
   */
  lemma {:induction false} RecurringCountsAreOne(trends: seq<TrendItem>)
    ensures var ts := Topics(trends); var r := FindRecurringTopics(trends);
      && |r| == (if |ts| <= 10 then |ts| else 10)
      && forall i :: 0 <= i < |r| ==> r[i] == (ts[i], 1)
  {
    var ts := Topics(trends);
    TopicsNoDups(trends);
    DistinctOfDistinct(ts);
    forall i | 0 <= i < |ts| ensures Count(ts, ts[i]) == 1 {
      CountOnce(ts, ts[i]);
    }
    RankSortEqualCounts(ts, ts, 1);
  }

  // ---------------------------------------------------------------------------
  // First appearances

  /** `set(topics) & set(added)` is non-empty. */
  predicate Shares(topics: seq<string>, added: seq<string>) {
    exists t :: t in topics && t in added
  }

  /** Each trend's own topics, `extract_topics([trend])`. */
  function TopicsEach(trends: seq<TrendItem>): (each: seq<seq<string>>)
    ensures |each| == |trends|
  {
    seq(|trends|, i requires 0 <= i < |trends| => Topics([trends[i]]))
  }

  /** For each trend, whether its topics (`each`) share one with `added`. */
  function Hits(each: seq<seq<string>>, added: seq<string>): (hits: seq<bool>)
    ensures |hits| == |each|
    decreases |each|
  {
    if each == [] then []
    else
      var n := |each| - 1;
      Hits(each[..n], added) + [Shares(each[n], added)]
  }

  lemma {:induction false} HitsAt(each: seq<seq<string>>, added: seq<string>, i: nat)
    requires i < |each|
    ensures Hits(each, added)[i] == Shares(each[i], added)
    decreases |each|
  {
    var n := |each| - 1;
    if i < n {
      HitsAt(each[..n], added, i);
      assert each[..n][i] == each[i];
    }
  }

  /** The titles, in trend order, of the trends marked in `hits`. */
  function MeetingTitles(trends: seq<TrendItem>, hits: seq<bool>): (r: seq<string>)
    requires |hits| == |trends|
    ensures |r| <= |trends|
    decreases |trends|
  {
    if trends == [] then []
    else
      var n := |trends| - 1;
      MeetingTitles(trends[..n], hits[..n]) + (if hits[n] then [trends[n].title] else [])
  }

  /** The positions, in increasing order, marked in `hits`. */
  function MeetingIndices(hits: seq<bool>): seq<nat>
    decreases |hits|
  {
    if hits == [] then []
    else
      var n := |hits| - 1;
      MeetingIndices(hits[..n]) + (if hits[n] then [n] else [])
  }

  /** Every listed position is marked. */
  lemma {:induction false} MeetingIndicesMarked(hits: seq<bool>)
    ensures forall k :: 0 <= k < |MeetingIndices(hits)| ==> MeetingIndices(hits)[k] < |hits| && hits[MeetingIndices(hits)[k]]
    decreases |hits|
  {
    if hits != [] {
      var n := |hits| - 1;
      MeetingIndicesMarked(hits[..n]);
      var p := MeetingIndices(hits[..n]);
      forall k | 0 <= k < |p|
        ensures hits[p[k]]
      {
        assert hits[..n][p[k]] == hits[p[k]];
      }
    }
  }

  /** The positions are listed in increasing order. */
  lemma {:induction false} MeetingIndicesIncreasing(hits: seq<bool>)
    ensures forall k :: 0 <= k < |MeetingIndices(hits)| ==> MeetingIndices(hits)[k] < |hits|
    ensures forall k, l :: 0 <= k < l < |MeetingIndices(hits)| ==> MeetingIndices(hits)[k] < MeetingIndices(hits)[l]
    decreases |hits|
  {
    if hits != [] {
      MeetingIndicesIncreasing(hits[..|hits| - 1]);
    }
  }

  /** Every marked position is listed. */
  lemma {:induction false} MeetingIndicesComplete(hits: seq<bool>)
    ensures forall i :: 0 <= i < |hits| && hits[i] ==> i in MeetingIndices(hits)
    decreases |hits|
  {
    if hits != [] {
      var n := |hits| - 1;
      MeetingIndicesComplete(hits[..n]);
      var p := MeetingIndices(hits[..n]);
      var ix := MeetingIndices(hits);
      assert ix[..|p|] == p;
      forall i | 0 <= i < |hits| && hits[i]
        ensures i in ix
      {
        if i < n {
          assert hits[..n][i];
          assert i in p;
        } else {
          assert ix[|ix| - 1] == n;
        }
      }
    }
  }

  /** The titles of the trends at positions `ix`. */
  function TitlesAt(trends: seq<TrendItem>, ix: seq<nat>): (r: seq<string>)
    requires forall k :: 0 <= k < |ix| ==> ix[k] < |trends|
    ensures |r| == |ix|
  {
    seq(|ix|, k requires 0 <= k < |ix| => trends[ix[k]].title)
  }

  /** The meeting titles are the titles at the meeting positions. */
  lemma {:induction false} MeetingTitlesAt(trends: seq<TrendItem>, hits: seq<bool>)
    requires |hits| == |trends|
    ensures forall k :: 0 <= k < |MeetingIndices(hits)| ==> MeetingIndices(hits)[k] < |trends|
    ensures MeetingTitles(trends, hits) == TitlesAt(trends, MeetingIndices(hits))
    decreases |trends|
  {
    MeetingIndicesIncreasing(hits);
    if trends != [] {
      var n := |trends| - 1;
      MeetingTitlesAt(trends[..n], hits[..n]);
    }
  }

  /** One more trend adds its title exactly when it is marked. */
  lemma MeetingTitlesStep(trends: seq<TrendItem>, hits: seq<bool>, i: nat)
    requires |hits| == |trends| && i < |trends|
    ensures MeetingTitles(trends[..i + 1], hits[..i + 1])
      == MeetingTitles(trends[..i], hits[..i]) + (if hits[i] then [trends[i].title] else [])
  {
    assert trends[..i + 1][..i] == trends[..i] && hits[..i + 1][..i] == hits[..i];
  }

  /** Titles of a prefix of the trends are a prefix of the titles of all of them. */
  lemma {:induction false} MeetingTitlesPrefix(trends: seq<TrendItem>, hits: seq<bool>, k: nat)
    requires |hits| == |trends| && k <= |trends|
    ensures var p := MeetingTitles(trends[..k], hits[..k]); var all := MeetingTitles(trends, hits);
      |p| <= |all| && all[..|p|] == p
    decreases |trends| - k
  {
    if k < |trends| {
      var n := |trends| - 1;
      MeetingTitlesPrefix(trends[..n], hits[..n], k);
      assert trends[..n][..k] == trends[..k] && hits[..n][..k] == hits[..k];
    } else {
      assert trends[..k] == trends && hits[..k] == hits;
    }
  }

  function Titles(trends: seq<TrendItem>): (r: seq<string>)
    ensures |r| == |trends| && forall i :: 0 <= i < |trends| ==> r[i] == trends[i].title
  {
    seq(|trends|, i requires 0 <= i < |trends| => trends[i].title)
  }

  /** `find_first_appearances` as a value. */
  function FirstAppearances(current: seq<TrendItem>, historical: Option<HistoricalData>): seq<string> {
    match historical
    case None => Titles(Take(current, 5))
    case Some(h) => Take(MeetingTitles(current, Hits(TopicsEach(current), NewTopics(current, h))), 5)
  }

  /**
    `find_first_appearances`: without an earlier run, the titles of the first
    five trends; otherwise the titles, in trend order, of the trends whose
    own topics include a new topic, stopping at five.
   */
  method FindFirstAppearances(current: seq<TrendItem>, historical: Option<HistoricalData>) returns (titles: seq<string>)
    ensures titles == FirstAppearances(current, historical)
    ensures |titles| <= 5
  {
    if historical.None? {
      titles := Titles(Take(current, 5));
      return;
    }
    var currentTopics := ExtractTopics(current);
    var added := Minus(currentTopics, historical.value.topics);
    ghost var hits := Hits(TopicsEach(current), added);
    forall j | 0 <= j < |current|
      ensures hits[j] == Shares(Topics([current[j]]), added)
    {
      HitsAt(TopicsEach(current), added, j);
    }
    assert MarksSharing(current, added, hits);
    titles := FirstMeeting(current, added, hits);
  }

  /** `hits[j]` says whether the own topics of `current[j]` share one with `added`. */
  ghost predicate MarksSharing(current: seq<TrendItem>, added: seq<string>, hits: seq<bool>) {
    && |hits| == |current|
    && forall j {:trigger Topics([current[j]])} :: 0 <= j < |current| ==> hits[j] == Shares(Topics([current[j]]), added)
  }

  /**
    The loop of `find_first_appearances`: the titles, in trend order, of the
    trends whose own topics share one with `added` (marked in `hits`),
    stopping at five.
   */
  method FirstMeeting(current: seq<TrendItem>, added: seq<string>, ghost hits: seq<bool>) returns (titles: seq<string>)
    requires MarksSharing(current, added, hits)
    ensures titles == Take(MeetingTitles(current, hits), 5)
  {
    titles := [];
    for i := 0 to |current|
      invariant titles == MeetingTitles(current[..i], hits[..i])
      invariant |titles| < 5
    {
      var meets := TrendMeets(current, i, added, hits);
      FirstMeetingStep(current, hits, i, titles);
      if meets {
        titles := titles + [current[i].title];
        if |titles| >= 5 {
          return;
        }
      }
    }
    assert current[..|current|] == current && hits[..|current|] == hits;
  }

  /** One round of the loop: the next title, if any, keeps the prefix, and a fifth ends the search. */
  lemma FirstMeetingStep(current: seq<TrendItem>, hits: seq<bool>, i: nat, titles: seq<string>)
    requires |hits| == |current| && i < |current|
    requires titles == MeetingTitles(current[..i], hits[..i]) && |titles| < 5
    ensures hits[i] ==> titles + [current[i].title] == MeetingTitles(current[..i + 1], hits[..i + 1])
    ensures !hits[i] ==> titles == MeetingTitles(current[..i + 1], hits[..i + 1])
    ensures hits[i] && |titles| == 4 ==> titles + [current[i].title] == Take(MeetingTitles(current, hits), 5)
  {
    MeetingTitlesStep(current, hits, i);
    MeetingTitlesPrefix(current, hits, i + 1);
  }

  /** Whether the topics of `current[i]` alone share one with `added`. */
  method TrendMeets(current: seq<TrendItem>, i: nat, added: seq<string>, ghost hits: seq<bool>) returns (meets: bool)
    requires i < |current| && MarksSharing(current, added, hits)
    ensures meets == hits[i]
  {
    var trendTopics := ExtractTopics([current[i]]);
    meets := Shares(trendTopics, added);
  }

  /** Without an earlier run, the titles of the first five trends. */
  lemma FirstAppearancesFirstRun(current: seq<TrendItem>)
    ensures var r := FirstAppearances(current, None);
      r == Titles(current)[..|r|] && |r| == (if |current| <= 5 then |current| else 5)
  {
  }

  /**
    After an earlier run: the titles, in trend order, of the first five trends
    whose own topics (`extract_topics([trend])`) include a topic new since
    that run, and of no other trend.
   */
  lemma FirstAppearancesMeet(current: seq<TrendItem>, h: HistoricalData)
    ensures var ix := MeetingIndices(Hits(TopicsEach(current), NewTopics(current, h)));
      && (forall k :: 0 <= k < |ix| ==> ix[k] < |current|)
      && FirstAppearances(current, Some(h)) == TitlesAt(current, Take(ix, 5))
  {
    var hits := Hits(TopicsEach(current), NewTopics(current, h));
    TakeMeetingTitles(current, hits);
  }

  /** The first five meeting titles are the titles at the first five meeting positions. */
  lemma TakeMeetingTitles(trends: seq<TrendItem>, hits: seq<bool>)
    requires |hits| == |trends|
    ensures forall k :: 0 <= k < |MeetingIndices(hits)| ==> MeetingIndices(hits)[k] < |trends|
    ensures Take(MeetingTitles(trends, hits), 5) == TitlesAt(trends, Take(MeetingIndices(hits), 5))
  {
    MeetingTitlesAt(trends, hits);
  }

  // Signal strength, counted in half points

  function VolumeHalfPoints(trends: seq<TrendItem>): nat {
    if |trends| > 20 then 2 else if |trends| > 10 then 1 else 0
  }

  function NoveltyHalfPoints(trends: seq<TrendItem>, historical: Option<HistoricalData>): nat {
    match historical
    case None => 0
    case Some(h) =>
      var added := set t | t in Topics(trends) && t !in h.topics;
      if |added| > 5 then 2 else if |added| > 2 then 1 else 0
  }

  function SourceCount(trends: seq<TrendItem>): nat {
    |set i | 0 <= i < |trends| :: trends[i].source|
  }

  function SpreadHalfPoints(trends: seq<TrendItem>): nat {
    if SourceCount(trends) >= 3 then 2 else 0
  }

  function RecurringHalfPoints(trends: seq<TrendItem>): nat {
    var r := FindRecurringTopics(trends);
    if exists i :: 0 <= i < |r| && r[i].1 >= 3 then 2 else 0
  }

  /** `calculate_signal_strength` as a value: the score starts at 1 point, and `int` truncates a half point. */
  function SignalStrength(trends: seq<TrendItem>, historical: Option<HistoricalData>): (s: int)
    ensures 1 <= s <= 5
  {
    var halves := 2 + VolumeHalfPoints(trends) + NoveltyHalfPoints(trends, historical) + SpreadHalfPoints(trends) + RecurringHalfPoints(trends);
    var points := halves / 2;
    if points > 5 then 5 else if points < 1 then 1 else points
  }

  /** Every recurring count is 1, so the recurring bonus never applies. */
  lemma RecurringBonusNeverFires(trends: seq<TrendItem>)
    ensures RecurringHalfPoints(trends) == 0
  {
    RecurringCountsAreOne(trends);
  }

  /** `calculate_signal_strength`: the score accumulates bonus by bonus; it never reaches 5. */
  method CalculateSignalStrength(trends: seq<TrendItem>, historical: Option<HistoricalData>) returns (strength: int)
    ensures strength == SignalStrength(trends, historical)
    ensures 1 <= strength <= 4
  {
    var halves := 2;
    if |trends| > 20 {
      halves := halves + 2;
    } else if |trends| > 10 {
      halves := halves + 1;
    }
    assert halves == 2 + VolumeHalfPoints(trends);
    if historical.Some? {
      var added := set t | t in Topics(trends) && t !in historical.value.topics;
      if |added| > 5 {
        halves := halves + 2;
      } else if |added| > 2 {
        halves := halves + 1;
      }
    }
    assert halves == 2 + VolumeHalfPoints(trends) + NoveltyHalfPoints(trends, historical);
    if SourceCount(trends) >= 3 {
      halves := halves + 2;
    }
    var recurring := FindRecurringTopics(trends);
    if exists i :: 0 <= i < |recurring| && recurring[i].1 >= 3 {
      halves := halves + 2;
    }
    assert halves == 2 + VolumeHalfPoints(trends) + NoveltyHalfPoints(trends, historical) + SpreadHalfPoints(trends) + RecurringHalfPoints(trends);
    RecurringBonusNeverFires(trends);
    var points := halves / 2;
    strength := if points > 5 then 5 else if points < 1 then 1 else points;
  }

  /** Eleven trends from one source on a first run earn half a point, which `int` drops. */
  lemma HalfPointTruncated(trends: seq<TrendItem>)
    requires |trends| == 11 && forall i :: 0 <= i < |trends| ==> trends[i].source == "news"
    ensures SignalStrength(trends, None) == 1
  {
    RecurringBonusNeverFires(trends);
    assert trends[0].source in (set i | 0 <= i < |trends| :: trends[i].source);
    assert (set i | 0 <= i < |trends| :: trends[i].source) == {"news"};
  }
}
