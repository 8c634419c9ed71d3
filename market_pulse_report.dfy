/**
  The text report of the market-pulse observer, and the way the observer
  normalises its `sources` argument and picks the collectors to run.
 */
module MarketPulseReport {
  import opened Values
  import opened Text
  import MarketPulse

  type TrendItem = MarketPulse.TrendItem

  /** The analysis a report is written from (its sentiment changes are not modelled). */
  datatype AnalysisResult = AnalysisResult(
    date: string,
    trends: seq<TrendItem>,
    narrativeShifts: seq<string>,
    recurringTopics: seq<(string, nat)>,
    firstAppearances: seq<string>,
    signalStrength: int)

  // ---------------------------------------------------------------------------
  // Fixed lines

  const Title := "市场脉搏观察报告"
  const SummaryHeading := "【执行摘要】"
  const ShiftsHeading := "【叙事转变】"
  const HeatHeading := "【重复主题（趋势热图）】"
  const FirstHeading := "【首次出现信号】"
  const DetailHeading := "【详细趋势列表】"

  /** `c * n` for a one-character string `c` */
  function Repeat(c: char, n: nat): string {
    seq(n, _ => c)
  }

  const Rule := Repeat('=', 80)
  const Dash := Repeat('-', 80)

  function Min(a: nat, b: nat): nat {
    if a < b then a else b
  }

  // ---------------------------------------------------------------------------
  // The lines of each section

  /** The heat bar of a topic counted `count` times: one block per count, at most ten. */
  function Bar(count: nat): (b: string)
    ensures |b| == Min(count, 10) && |b| <= 10
    ensures forall i :: 0 <= i < |b| ==> b[i] == '█'
  {
    Repeat('█', Min(count, 10))
  }

  /** `f"{s:{w}s}"`: `s` left-aligned in a field of width `w`, padded with spaces, never cut. */
  function PadRight(s: string, w: nat): (r: string)
    ensures |r| == if |s| < w then w else |s|
    ensures r[..|s|] == s
    ensures forall i :: |s| <= i < |r| ==> r[i] == ' '
  {
    if |s| < w then s + Repeat(' ', w - |s|) else s
  }

  /** `f"{topic:30s} {bar} ({count})"` */
  function HeatLine(topic: string, count: nat): string {
    PadRight(topic, 30) + " " + Bar(count) + " (" + NatToString(count) + ")"
  }

  /** A heat line is the padded topic and a space, then the bar, then the count in brackets. */
  lemma HeatLineSplit(topic: string, count: nat)
    ensures HeatLine(topic, count) == (PadRight(topic, 30) + " ") + Bar(count) + (" (" + NatToString(count) + ")")
  {
  }

  lemma MiddleSlice<T>(a: seq<T>, b: seq<T>, c: seq<T>)
    ensures (a + b + c)[..|a|] == a
    ensures (a + b + c)[|a|..|a| + |b|] == b
    ensures (a + b + c)[|a| + |b|..] == c
  {
  }

  /** A heat line starts with the topic, left-aligned in a column at least 30 wide and followed by a space. */
  lemma HeatLineColumn(topic: string, count: nat)
    ensures var w := if |topic| < 30 then 30 else |topic|;
      && |HeatLine(topic, count)| == w + Min(count, 10) + |NatToString(count)| + 4
      && HeatLine(topic, count)[..|topic|] == topic
      && forall i :: |topic| <= i <= w ==> HeatLine(topic, count)[i] == ' '
  {
    HeatLineSplit(topic, count);
    var p := PadRight(topic, 30);
    MiddleSlice(p + " ", Bar(count), " (" + NatToString(count) + ")");
    assert HeatLine(topic, count)[..|topic|] == (p + " ")[..|topic|] == p[..|topic|];
  }

  /** After the topic column and a space come exactly `min(count, 10)` blocks, then the count in brackets. */
  lemma HeatLineBar(topic: string, count: nat)
    ensures var w := if |topic| < 30 then 30 else |topic|;
      && HeatLine(topic, count)[w + 1..w + 1 + Min(count, 10)] == Repeat('█', Min(count, 10))
      && HeatLine(topic, count)[w + 1 + Min(count, 10)..] == " (" + NatToString(count) + ")"
  {
    HeatLineSplit(topic, count);
    MiddleSlice(PadRight(topic, 30) + " ", Bar(count), " (" + NatToString(count) + ")");
  }

  /** `f"• {shift}"` for each shift */
  function Bullets(shifts: seq<string>): seq<string> {
    seq(|shifts|, i requires 0 <= i < |shifts| => "• " + shifts[i])
  }

  function HeatLines(topics: seq<(string, nat)>): seq<string> {
    seq(|topics|, i requires 0 <= i < |topics| => HeatLine(topics[i].0, topics[i].1))
  }

  /** `f"{i}. {signal}"`, numbered from 1 */
  function Numbered(signals: seq<string>): seq<string> {
    seq(|signals|, i requires 0 <= i < |signals| => NatToString(i + 1) + ". " + signals[i])
  }

  function ShiftSection(shifts: seq<string>): seq<string> {
    if shifts == [] then [] else [ShiftsHeading, Dash] + Bullets(shifts) + [""]
  }

  function HeatSection(topics: seq<(string, nat)>): seq<string> {
    if topics == [] then [] else [HeatHeading, Dash] + HeatLines(topics) + [""]
  }

  function FirstSection(signals: seq<string>): seq<string> {
    if signals == [] then [] else [FirstHeading, Dash] + Numbered(signals) + [""]
  }

  /** The lines of the `i`-th listed trend: its title, then its link when it has one. */
  function ItemLines(i: nat, t: TrendItem): seq<string> {
    ["  " + NatToString(i) + ". " + t.title] + (if t.url != "" then ["     链接: " + t.url] else [])
  }

  /** The item lines of `ts`, numbered from 1. */
  function ListLines(ts: seq<TrendItem>): seq<string>
    decreases |ts|
  {
    if ts == [] then [] else ListLines(ts[..|ts| - 1]) + ItemLines(|ts|, ts[|ts| - 1])
  }

  /** A source's block: its name, then at most ten of its trends. */
  function SourceBlock(src: string, ts: seq<TrendItem>): seq<string> {
    ["\n" + src + ":"] + ListLines(Take(ts, 10))
  }

  // ---------------------------------------------------------------------------
  // Grouping by source (a dictionary keeps its keys in insertion order)

  function Sources(trends: seq<TrendItem>): seq<string> {
    seq(|trends|, i requires 0 <= i < |trends| => trends[i].source)
  }

  /** The keys of `by_source`, in insertion order. */
  function SourcesOf(trends: seq<TrendItem>): seq<string> {
    MarketPulse.Distinct(Sources(trends))
  }

  /** `by_source[src]`: the trends of `src`, in order. */
  function OfSource(trends: seq<TrendItem>, src: string): seq<TrendItem>
    decreases |trends|
  {
    if trends == [] then []
    else
      var last := trends[|trends| - 1];
      OfSource(trends[..|trends| - 1], src) + (if last.source == src then [last] else [])
  }

  function Blocks(trends: seq<TrendItem>, srcs: seq<string>): seq<string>
    decreases |srcs|
  {
    if srcs == [] then []
    else
      var src := srcs[|srcs| - 1];
      Blocks(trends, srcs[..|srcs| - 1]) + SourceBlock(src, OfSource(trends, src))
  }

  function DetailSection(trends: seq<TrendItem>): seq<string> {
    [DetailHeading, Dash] + Blocks(trends, SourcesOf(trends))
  }

  // ---------------------------------------------------------------------------
  // The report

  function Header(date: string): seq<string> {
    [Rule, Title, Rule, "生成时间: " + date, ""]
  }

  function Summary(a: AnalysisResult): seq<string> {
    [ SummaryHeading, Dash,
      "收集到 " + NatToString(|a.trends|) + " 条趋势数据",
      "检测到 " + NatToString(|a.narrativeShifts|) + " 个叙事转变",
      "识别出 " + NatToString(|a.recurringTopics|) + " 个重复主题",
      "发现 " + NatToString(|a.firstAppearances|) + " 个首次出现信号",
      "信号强度评级: " + IntToString(a.signalStrength) + "/5",
      "" ]
  }

  function ReportLines(a: AnalysisResult): seq<string> {
    Header(a.date) + Summary(a)
    + ShiftSection(a.narrativeShifts)
    + HeatSection(a.recurringTopics)
    + FirstSection(a.firstAppearances)
    + DetailSection(a.trends)
    + ["", Rule]
  }

  /** `ReportGenerator.generate_report`, without writing the report file. */
  method GenerateReport(a: AnalysisResult) returns (report: string)
    ensures report == Join("\n", ReportLines(a))
  {
    var lines := Header(a.date) + Summary(a);
    var shifts := ShiftLines(a.narrativeShifts);
    lines := lines + shifts;
    var heat := HeatMapLines(a.recurringTopics);
    lines := lines + heat;
    var first := FirstLines(a.firstAppearances);
    lines := lines + first;
    var details := DetailLines(a.trends);
    lines := lines + details;
    lines := lines + ["", Rule];
    report := Join("\n", lines);
  }

  method ShiftLines(shifts: seq<string>) returns (section: seq<string>)
    ensures section == ShiftSection(shifts)
  {
    section := [];
    if shifts != [] {
      var bullets: seq<string> := [];
      for i := 0 to |shifts|
        invariant bullets == Bullets(shifts[..i])
      {
        bullets := bullets + ["• " + shifts[i]];
      }
      assert shifts[..|shifts|] == shifts;
      section := [ShiftsHeading, Dash] + bullets + [""];
    }
  }

  method HeatMapLines(topics: seq<(string, nat)>) returns (section: seq<string>)
    ensures section == HeatSection(topics)
  {
    section := [];
    if topics != [] {
      var heat: seq<string> := [];
      for i := 0 to |topics|
        invariant heat == HeatLines(topics[..i])
      {
        var (topic, count) := topics[i];
        var bar := Repeat('█', Min(count, 10));
        heat := heat + [PadRight(topic, 30) + " " + bar + " (" + NatToString(count) + ")"];
      }
      assert topics[..|topics|] == topics;
      section := [HeatHeading, Dash] + heat + [""];
    }
  }

  method FirstLines(signals: seq<string>) returns (section: seq<string>)
    ensures section == FirstSection(signals)
  {
    section := [];
    if signals != [] {
      var numbered: seq<string> := [];
      for i := 0 to |signals|
        invariant numbered == Numbered(signals[..i])
      {
        numbered := numbered + [NatToString(i + 1) + ". " + signals[i]];
      }
      assert signals[..|signals|] == signals;
      section := [FirstHeading, Dash] + numbered + [""];
    }
  }

  method DetailLines(trends: seq<TrendItem>) returns (section: seq<string>)
    ensures section == DetailSection(trends)
  {
    var bySource, order := GroupBySource(trends);
    var blocks: seq<string> := [];
    for k := 0 to |order|
      invariant blocks == Blocks(trends, order[..k])
    {
      var src := order[k];
      var block := BlockLines(src, bySource[src]);
      BlocksStep(trends, order, k);
      blocks := blocks + block;
    }
    assert order[..|order|] == order;
    section := [DetailHeading, Dash] + blocks;
  }

  /**
    `bySource` and `order` are `by_source` after `trends`: its keys in
    insertion order, each mapped to the trends of that source.
   */
  ghost predicate Grouping(trends: seq<TrendItem>, bySource: map<string, seq<TrendItem>>, order: seq<string>) {
    && order == SourcesOf(trends)
    && (forall s :: s in bySource <==> s in order)
    && (forall s :: s in bySource ==> bySource[s] == OfSource(trends, s))
  }

  /** `by_source`: the trends of each source, keyed in the order the sources first occur. */
  method GroupBySource(trends: seq<TrendItem>) returns (bySource: map<string, seq<TrendItem>>, order: seq<string>)
    ensures Grouping(trends, bySource, order)
  {
    bySource := map[];
    order := [];
    for i := 0 to |trends|
      invariant Grouping(trends[..i], bySource, order)
    {
      var t := trends[i];
      if t.source in bySource {
        GroupingStepKnown(trends, i, bySource, order);
        bySource := bySource[t.source := bySource[t.source] + [t]];
      } else {
        GroupingStepNew(trends, i, bySource, order);
        bySource := bySource[t.source := [t]];
        order := order + [t.source];
      }
    }
    assert trends[..|trends|] == trends;
  }

  /** The block of one source: its name, then its first ten trends, numbered from 1. */
  method BlockLines(src: string, ts: seq<TrendItem>) returns (block: seq<string>)
    ensures block == SourceBlock(src, ts)
  {
    var shown := Take(ts, 10);
    var items: seq<string> := [];
    for j := 0 to |shown|
      invariant items == ListLines(shown[..j])
    {
      var item := ["  " + NatToString(j + 1) + ". " + shown[j].title];
      if shown[j].url != "" {
        item := item + ["     链接: " + shown[j].url];
      }
      assert shown[..j + 1][..j] == shown[..j];
      items := items + item;
    }
    assert shown[..|shown|] == shown;
    block := ["\n" + src + ":"] + items;
  }

  lemma BlocksStep(trends: seq<TrendItem>, srcs: seq<string>, k: nat)
    requires k < |srcs|
    ensures Blocks(trends, srcs[..k + 1]) == Blocks(trends, srcs[..k]) + SourceBlock(srcs[k], OfSource(trends, srcs[k]))
  {
    assert srcs[..k + 1][..k] == srcs[..k];
  }

  /** The distinct members are those of `xs`. */
  lemma DistinctMembers(xs: seq<string>)
    ensures forall x :: x in MarketPulse.Distinct(xs) <==> x in xs
  {
    MarketPulse.DistinctSpec(xs);
  }

  /** One more trend joins the group of its source only. */
  lemma OfSourceStep(trends: seq<TrendItem>, i: nat, s: string)
    requires i < |trends|
    ensures OfSource(trends[..i + 1], s) == OfSource(trends[..i], s) + (if s == trends[i].source then [trends[i]] else [])
  {
    assert trends[..i + 1][..i] == trends[..i];
  }

  /** One more trend adds its source to the keys when it is new. */
  lemma SourcesStep(trends: seq<TrendItem>, i: nat)
    requires i < |trends|
    ensures SourcesOf(trends[..i + 1])
      == if trends[i].source in SourcesOf(trends[..i]) then SourcesOf(trends[..i])
         else SourcesOf(trends[..i]) + [trends[i].source]
    ensures trends[i].source !in SourcesOf(trends[..i]) ==> OfSource(trends[..i], trends[i].source) == []
  {
    var pre := trends[..i];
    assert trends[..i + 1][..i] == pre;
    assert Sources(trends[..i + 1])[..i] == Sources(pre);
    DistinctMembers(Sources(pre));
    if trends[i].source !in SourcesOf(pre) {
      OfSourceAbsent(pre, trends[i].source);
    }
  }

  /** What `by_source[trend.source].append(trend)` does to the grouping when the source is known. */
  lemma GroupingStepKnown(trends: seq<TrendItem>, i: nat, bySource: map<string, seq<TrendItem>>, order: seq<string>)
    requires i < |trends| && Grouping(trends[..i], bySource, order)
    requires trends[i].source in bySource
    ensures Grouping(trends[..i + 1], bySource[trends[i].source := bySource[trends[i].source] + [trends[i]]], order)
  {
    var t := trends[i];
    var next := bySource[t.source := bySource[t.source] + [t]];
    SourcesStep(trends, i);
    forall s | s in next
      ensures next[s] == OfSource(trends[..i + 1], s)
    {
      OfSourceStep(trends, i, s);
    }
  }

  /** What `by_source[trend.source].append(trend)` does to the grouping when the source is new. */
  lemma GroupingStepNew(trends: seq<TrendItem>, i: nat, bySource: map<string, seq<TrendItem>>, order: seq<string>)
    requires i < |trends| && Grouping(trends[..i], bySource, order)
    requires trends[i].source !in bySource
    ensures Grouping(trends[..i + 1], bySource[trends[i].source := [trends[i]]], order + [trends[i].source])
  {
    var t := trends[i];
    var next := bySource[t.source := [t]];
    SourcesStep(trends, i);
    forall s | s in next
      ensures next[s] == OfSource(trends[..i + 1], s)
    {
      OfSourceStep(trends, i, s);
    }
  }

  /** A source no trend has gets an empty group. */
  lemma {:induction false} OfSourceAbsent(trends: seq<TrendItem>, src: string)
    requires src !in Sources(trends)
    ensures OfSource(trends, src) == []
    decreases |trends|
  {
    if trends != [] {
      var init := trends[..|trends| - 1];
      assert Sources(trends)[..|init|] == Sources(init);
      assert trends[|trends| - 1].source == Sources(trends)[|trends| - 1];
      OfSourceAbsent(init, src);
    }
  }

  // ---------------------------------------------------------------------------
  // Properties of the report

  /** How many of `ts` have a link. */
  function Linked(ts: seq<TrendItem>): (n: nat)
    decreases |ts|
  {
    if ts == [] then 0 else Linked(ts[..|ts| - 1]) + (if ts[|ts| - 1].url != "" then 1 else 0)
  }

  lemma {:induction false} ListLinesSize(ts: seq<TrendItem>)
    ensures |ListLines(ts)| == |ts| + Linked(ts)
    ensures Linked(ts) <= |ts|
    decreases |ts|
  {
    if ts != [] {
      ListLinesSize(ts[..|ts| - 1]);
    }
  }

  /**
    A source's block has its name line and one title line for each of at most
    ten of its trends, plus one link line for each of those with a link.
   */
  lemma SourceBlockSize(src: string, ts: seq<TrendItem>)
    ensures |SourceBlock(src, ts)| == 1 + Min(|ts|, 10) + Linked(Take(ts, 10))
    ensures |SourceBlock(src, ts)| <= 1 + 2 * Min(|ts|, 10)
  {
    ListLinesSize(Take(ts, 10));
  }

  /** The sum of the group sizes of `srcs`. */
  function Grouped(trends: seq<TrendItem>, srcs: seq<string>): nat
    decreases |srcs|
  {
    if srcs == [] then 0 else Grouped(trends, srcs[..|srcs| - 1]) + |OfSource(trends, srcs[|srcs| - 1])|
  }

  /** One more trend adds one to the sum of the groups of each time its source is listed. */
  lemma {:induction false} GroupedStep(trends: seq<TrendItem>, i: nat, srcs: seq<string>)
    requires i < |trends|
    ensures Grouped(trends[..i + 1], srcs) == Grouped(trends[..i], srcs) + MarketPulse.Count(srcs, trends[i].source)
    decreases |srcs|
  {
    if srcs != [] {
      var init := srcs[..|srcs| - 1];
      GroupedStep(trends, i, init);
      OfSourceStep(trends, i, srcs[|srcs| - 1]);
      assert srcs == init + [srcs[|srcs| - 1]];
    }
  }

  lemma {:induction false} GroupedAppend(trends: seq<TrendItem>, srcs: seq<string>, src: string)
    ensures Grouped(trends, srcs + [src]) == Grouped(trends, srcs) + |OfSource(trends, src)|
  {
    assert (srcs + [src])[..|srcs|] == srcs;
  }

  /**
    Grouping by source neither loses nor repeats a trend: the groups of the
    distinct sources together hold exactly as many trends as there are.
   */
  lemma {:induction false} GroupingPartitions(trends: seq<TrendItem>)
    ensures Grouped(trends, SourcesOf(trends)) == |trends|
    decreases |trends|
  {
    if trends != [] {
      var i := |trends| - 1;
      var pre := trends[..i];
      var src := trends[i].source;
      assert trends[..i + 1] == trends;
      GroupingPartitions(pre);
      SourcesStep(trends, i);
      OfSourceStep(trends, i, src);
      GroupedStep(trends, i, SourcesOf(pre));
      MarketPulse.DistinctSpec(Sources(pre));
      if src in SourcesOf(pre) {
        MarketPulse.CountOnce(SourcesOf(pre), src);
      } else {
        GroupedAppend(trends, SourcesOf(pre), src);
      }
    }
  }

  /** Every member of a group has that group's source. */
  lemma {:induction false} OfSourceMembers(trends: seq<TrendItem>, src: string)
    ensures forall t :: t in OfSource(trends, src) ==> t in trends && t.source == src
    decreases |trends|
  {
    if trends != [] {
      var init := trends[..|trends| - 1];
      OfSourceMembers(init, src);
      assert trends == init + [trends[|trends| - 1]];
    }
  }

  // ---------------------------------------------------------------------------
  // Which sections appear

  /** A line that cannot be a section heading: empty, not opening with '【', or 30 or more long. */
  ghost predicate PlainLine(l: string) {
    |l| == 0 || l[0] != '【' || |l| >= 30
  }

  /** The headings of the sections present in the report of `a`. */
  function Headings(a: AnalysisResult): seq<string> {
    [SummaryHeading]
    + (if a.narrativeShifts != [] then [ShiftsHeading] else [])
    + (if a.recurringTopics != [] then [HeatHeading] else [])
    + (if a.firstAppearances != [] then [FirstHeading] else [])
    + [DetailHeading]
  }

  lemma DigitIsDigit(d: nat)
    requires d < 10
    ensures '0' <= DigitChar(d) <= '9'
  {
    if d == 0 {} else if d == 1 {} else if d == 2 {} else if d == 3 {} else if d == 4 {}
    else if d == 5 {} else if d == 6 {} else if d == 7 {} else if d == 8 {}
  }

  lemma {:induction false} NatToStringLeadsWithDigit(n: nat)
    ensures '0' <= NatToString(n)[0] <= '9'
    decreases n
  {
    if n < 10 {
      DigitIsDigit(n);
    } else {
      NatToStringLeadsWithDigit(n / 10);
    }
  }

  /** Every line of `ls` is plain text or one of the headings `hs`. */
  ghost predicate Classified(ls: seq<string>, hs: seq<string>) {
    forall l :: l in ls ==> PlainLine(l) || l in hs
  }

  lemma ClassifiedParts(top: seq<string>, p: seq<string>, q: seq<string>, r: seq<string>, d: seq<string>, foot: seq<string>, hs: seq<string>)
    requires Classified(top, hs) && Classified(p, hs) && Classified(q, hs)
    requires Classified(r, hs) && Classified(d, hs) && Classified(foot, hs)
    ensures Classified(top + p + q + r + d + foot, hs)
  {
  }

  lemma FixedLinesPlain(a: AnalysisResult)
    ensures Classified(Header(a.date) + Summary(a), Headings(a))
    ensures Classified(["", Rule], Headings(a))
  {
    assert Rule[0] == '=';
    assert Dash[0] == '-';
    assert Headings(a)[0] == SummaryHeading;
  }

  lemma ShiftLinesPlain(shifts: seq<string>)
    ensures forall l :: l in ShiftSection(shifts) ==> PlainLine(l) || l == ShiftsHeading
  {
    assert Dash[0] == '-';
    forall l | l in Bullets(shifts)
      ensures PlainLine(l)
    {
      var i :| 0 <= i < |shifts| && l == "• " + shifts[i];
    }
  }

  lemma HeatLinesPlain(topics: seq<(string, nat)>)
    ensures forall l :: l in HeatSection(topics) ==> PlainLine(l) || l == HeatHeading
  {
    assert Dash[0] == '-';
    forall l | l in HeatLines(topics)
      ensures PlainLine(l)
    {
      var i :| 0 <= i < |topics| && l == HeatLine(topics[i].0, topics[i].1);
      assert |PadRight(topics[i].0, 30)| >= 30;
    }
  }

  lemma FirstLinesPlain(signals: seq<string>)
    ensures forall l :: l in FirstSection(signals) ==> PlainLine(l) || l == FirstHeading
  {
    assert Dash[0] == '-';
    forall l | l in Numbered(signals)
      ensures PlainLine(l)
    {
      var i :| 0 <= i < |signals| && l == NatToString(i + 1) + ". " + signals[i];
      NatToStringLeadsWithDigit(i + 1);
    }
  }

  lemma {:induction false} ListLinesPlain(ts: seq<TrendItem>)
    ensures forall l :: l in ListLines(ts) ==> PlainLine(l)
    decreases |ts|
  {
    if ts != [] {
      ListLinesPlain(ts[..|ts| - 1]);
    }
  }

  lemma {:induction false} BlocksPlain(trends: seq<TrendItem>, srcs: seq<string>)
    ensures forall l :: l in Blocks(trends, srcs) ==> PlainLine(l)
    decreases |srcs|
  {
    if srcs != [] {
      var src := srcs[|srcs| - 1];
      BlocksPlain(trends, srcs[..|srcs| - 1]);
      ListLinesPlain(Take(OfSource(trends, src), 10));
    }
  }

  lemma ShiftPartClassified(a: AnalysisResult)
    ensures Classified(ShiftSection(a.narrativeShifts), Headings(a))
  {
    ShiftLinesPlain(a.narrativeShifts);
    if a.narrativeShifts != [] {
      assert Headings(a)[1] == ShiftsHeading;
    }
  }

  lemma HeatPartClassified(a: AnalysisResult)
    ensures Classified(HeatSection(a.recurringTopics), Headings(a))
  {
    HeatLinesPlain(a.recurringTopics);
    if a.recurringTopics != [] {
      var hs := Headings(a);
      assert HeatHeading in hs by {
        if a.narrativeShifts != [] { assert hs[2] == HeatHeading; } else { assert hs[1] == HeatHeading; }
      }
    }
  }

  lemma FirstPartClassified(a: AnalysisResult)
    ensures Classified(FirstSection(a.firstAppearances), Headings(a))
  {
    FirstLinesPlain(a.firstAppearances);
    if a.firstAppearances != [] {
      var hs := Headings(a);
      assert hs[|hs| - 2] == FirstHeading;
    }
  }

  lemma DetailPartClassified(a: AnalysisResult)
    ensures Classified(DetailSection(a.trends), Headings(a))
  {
    BlocksPlain(a.trends, SourcesOf(a.trends));
    assert Dash[0] == '-';
    var hs := Headings(a);
    assert hs[|hs| - 1] == DetailHeading;
  }

  /** Every line of a report is plain text or the heading of a section that is present. */
  lemma ReportLinesClassified(a: AnalysisResult)
    ensures Classified(ReportLines(a), Headings(a))
  {
    FixedLinesPlain(a);
    ShiftPartClassified(a);
    HeatPartClassified(a);
    FirstPartClassified(a);
    DetailPartClassified(a);
    ClassifiedParts(Header(a.date) + Summary(a), ShiftSection(a.narrativeShifts), HeatSection(a.recurringTopics),
      FirstSection(a.firstAppearances), DetailSection(a.trends), ["", Rule], Headings(a));
  }

  /** A heading that is not plain is in a report only as the heading of a present section. */
  lemma HeadingInReport(a: AnalysisResult, h: string)
    requires !PlainLine(h)
    ensures h in ReportLines(a) ==> h in Headings(a)
  {
    ReportLinesClassified(a);
  }

  /** The narrative-shift section appears exactly when there are shifts. */
  lemma ShiftSectionPresentIff(a: AnalysisResult)
    ensures ShiftsHeading in ReportLines(a) <==> a.narrativeShifts != []
  {
    if a.narrativeShifts == [] {
      HeadingInReport(a, ShiftsHeading);
      assert ShiftsHeading[1] != SummaryHeading[1];
      assert ShiftsHeading[1] != HeatHeading[1];
    } else {
      assert ShiftsHeading == ShiftSection(a.narrativeShifts)[0];
      assert ShiftsHeading in ShiftSection(a.narrativeShifts);
    }
  }

  /** The recurring-topic heat map appears exactly when there are recurring topics. */
  lemma HeatSectionPresentIff(a: AnalysisResult)
    ensures HeatHeading in ReportLines(a) <==> a.recurringTopics != []
  {
    if a.recurringTopics == [] {
      HeadingInReport(a, HeatHeading);
    } else {
      assert HeatHeading in HeatSection(a.recurringTopics);
    }
  }

  /** The first-appearance section appears exactly when there are first appearances. */
  lemma FirstSectionPresentIff(a: AnalysisResult)
    ensures FirstHeading in ReportLines(a) <==> a.firstAppearances != []
  {
    if a.firstAppearances == [] {
      HeadingInReport(a, FirstHeading);
      assert FirstHeading[1] != DetailHeading[1];
    } else {
      assert FirstHeading in FirstSection(a.firstAppearances);
    }
  }

  // ---------------------------------------------------------------------------
  // The `sources` argument

  const PlaywrightMissing := "playwright 未安装。请运行: pip install playwright && playwright install chromium"
  const NotADict := "sources 参数必须是字典或字符串，但收到了 "

  const XTrending := "x_trending"
  const FinancialNews := "financial_news"
  const AiMedia := "ai_media"

  datatype Normalized = Ok(flags: Dict) | Err(error: string)

  function DefaultSources(): Dict {
    map[XTrending := VBool(true), FinancialNews := VBool(true), AiMedia := VBool(false)]
  }

  /** A string that is not JSON names the one source to collect from. */
  function SingleSource(s: string): Dict {
    var name := Lower(s);
    map[XTrending := VBool(name == XTrending), FinancialNews := VBool(name == FinancialNews), AiMedia := VBool(name == AiMedia)]
  }

  /**
    The checks `market_pulse_observer` makes before it collects anything.
    `parse` is `json.loads`, giving None where it raises. The observer goes on
    exactly when playwright is there and the argument is None, a dictionary, a
    string that is not JSON or a string holding a JSON object; otherwise the
    error names the type it got.
   */
  function NormalizeSources(playwright: bool, sources: Value, parse: string -> Option<Value>): (r: Normalized)
    ensures r.Ok? ==> playwright
    ensures !playwright ==> r == Err(PlaywrightMissing)
    ensures r.Ok?
      <==> playwright
           && (sources.VNone? || sources.VDict?
               || (sources.VStr? && (parse(sources.s).None? || parse(sources.s).value.VDict?)))
    ensures playwright && sources.VDict? ==> r == Ok(sources.entries)
    ensures playwright && !sources.VNone? && !sources.VStr? && !sources.VDict?
      ==> r == Err(NotADict + TypeName(sources))
    ensures playwright && sources.VStr? && parse(sources.s).Some? && !parse(sources.s).value.VDict?
      ==> r == Err(NotADict + TypeName(parse(sources.s).value))
  {
    if !playwright then Err(PlaywrightMissing)
    else
      var given := if sources.VNone? then VDict(DefaultSources()) else sources;
      var resolved :=
        if given.VStr? then
          match parse(given.s)
          case Some(v) => v
          case None => VDict(SingleSource(given.s))
        else given;
      if resolved.VDict? then Ok(resolved.entries) else Err(NotADict + TypeName(resolved))
  }

  /** `sources.get(name, default)`: every source but the AI media is on unless switched off. */
  predicate Wants(flags: Dict, name: string) {
    Truthy(Get(flags, name, VBool(name != AiMedia)))
  }

  /** No argument collects from X and the financial news but not the AI media. */
  lemma DefaultsPickTwo(parse: string -> Option<Value>)
    ensures NormalizeSources(true, VNone, parse) == Ok(DefaultSources())
    ensures Wants(DefaultSources(), XTrending) && Wants(DefaultSources(), FinancialNews)
    ensures !Wants(DefaultSources(), AiMedia)
  {
  }

  /** A string that is not JSON switches on exactly the source its lower-cased form names. */
  lemma SingleNamePicksOne(s: string, parse: string -> Option<Value>, name: string)
    requires parse(s).None?
    requires name == XTrending || name == FinancialNews || name == AiMedia
    ensures NormalizeSources(true, VStr(s), parse).Ok?
    ensures Wants(NormalizeSources(true, VStr(s), parse).flags, name) <==> Lower(s) == name
  {
  }

  /**
    The trends gathered from the collectors that are wanted; a collector that
    raised (None) adds nothing and the others still run.
   */
  function Collect(flags: Dict, x: Option<seq<TrendItem>>, news: Option<seq<TrendItem>>, ai: Option<seq<TrendItem>>): seq<TrendItem> {
    (if Wants(flags, XTrending) && x.Some? then x.value else [])
    + (if Wants(flags, FinancialNews) && news.Some? then news.value else [])
    + (if Wants(flags, AiMedia) && ai.Some? then ai.value else [])
  }

  /**
    The trends collected are exactly those of the wanted collectors that did
    not raise, each collector's trends in one piece, in collector order: a
    collector the flags switch off contributes nothing.
   */
  lemma CollectKeepsOrder(flags: Dict, x: Option<seq<TrendItem>>, news: Option<seq<TrendItem>>, ai: Option<seq<TrendItem>>)
    ensures var r := Collect(flags, x, news, ai);
      var useX := Wants(flags, XTrending) && x.Some?;
      var useNews := Wants(flags, FinancialNews) && news.Some?;
      var useAi := Wants(flags, AiMedia) && ai.Some?;
      var a := if useX then |x.value| else 0;
      var b := if useNews then |news.value| else 0;
      var c := if useAi then |ai.value| else 0;
      && |r| == a + b + c
      && (useX ==> r[..a] == x.value)
      && (useNews ==> r[a..a + b] == news.value)
      && (useAi ==> r[a + b..] == ai.value)
      && (forall t :: t in r ==> (useX && t in x.value) || (useNews && t in news.value) || (useAi && t in ai.value))
  {
  }
}
