/** The opportunity scorer of analyzer/market_analyzer.py: a market record is
    turned into a score, a recommendation and a list of reasons by four
    independent rules, and a scan keeps the records that meet a threshold,
    ordered by score, highest first.

    The HTTP fetch of the market list is not modelled: the fetched records are
    a parameter, and a failed fetch is the empty sequence. The number of days
    until the market's end date is an input of the record, because computing it
    needs the wall clock and an ISO-8601 parser. */
module Analyzer {
  import opened Wrappers
  import opened Seqs

  // ---------------------------------------------------------------------------
  // Market records and analyses
  // ---------------------------------------------------------------------------

  /** The first entry of a market's `outcomes` list: it either carries a
      numeric price, or its price is missing or not a number. */
  datatype Outcome = Priced(price: real) | Unpriced

  /** A present, non-empty `end_date_iso`: it either parses, giving the whole
      number of days left until it, or it does not parse. */
  datatype EndDate = Parsed(daysLeft: int) | Malformed

  /** One raw market record as fetched. A field that is absent is `None`;
      `endDate` is also `None` when the date string is empty. */
  datatype Market = Market(
    id: Option<string>,
    question: Option<string>,
    volume: Option<real>,
    liquidity: Option<real>,
    outcomes: seq<Outcome>,
    endDate: Option<EndDate>)

  datatype Recommendation = Skip | Watch | Buy | StrongBuy {
    /** The text the analysis carries. */
    function Label(): string {
      match this
      case Skip => "SKIP"
      case Watch => "WATCH"
      case Buy => "BUY"
      case StrongBuy => "STRONG BUY"
    }

    /** Position of the band, from SKIP (0) to STRONG BUY (3). */
    function Rank(): nat {
      match this
      case Skip => 0
      case Watch => 1
      case Buy => 2
      case StrongBuy => 3
    }
  }

  /** The analysis of one market. The score is kept as an integer: every rule
      adds a whole number of points to a score that starts at zero. */
  datatype Analysis = Analysis(
    marketId: Option<string>,
    question: Option<string>,
    volume: real,
    liquidity: real,
    currentPrice: real,
    score: int,
    recommendation: Recommendation,
    reasoning: seq<string>)

  // ---------------------------------------------------------------------------
  // Field extraction with neutral defaults
  // ---------------------------------------------------------------------------

  function Volume(m: Market): real { m.volume.GetOr(0.0) }

  function Liquidity(m: Market): real { m.liquidity.GetOr(0.0) }

  /** The YES price: the price of the first outcome, 0 when there are no
      outcomes or that price is missing or malformed. */
  function CurrentPrice(m: Market): (p: real)
    ensures m.outcomes == [] ==> p == 0.0
    ensures m.outcomes != [] && m.outcomes[0].Unpriced? ==> p == 0.0
    ensures m.outcomes != [] && m.outcomes[0].Priced? ==> p == m.outcomes[0].price
    ensures p != 0.0 ==> m.outcomes != [] && m.outcomes[0] == Priced(p)
  {
    if |m.outcomes| > 0 then
      match m.outcomes[0]
      case Priced(price) => price
      case Unpriced => 0.0
    else 0.0
  }

  /** Days until a present end date; an unparsable date counts as 0 days. */
  function DaysUntil(e: EndDate): (days: int)
    ensures e.Parsed? ==> days == e.daysLeft
    ensures e.Malformed? ==> days == 0
  {
    match e
    case Parsed(d) => d
    case Malformed => 0
  }

  // ---------------------------------------------------------------------------
  // The scoring rules
  // ---------------------------------------------------------------------------

  datatype Rule = VolumeRule | LiquidityRule | PricingRule | TimeframeRule

  function Points(r: Rule): int {
    match r
    case VolumeRule => 30
    case LiquidityRule => 20
    case PricingRule => 25
    case TimeframeRule => 15
  }

  /** Whether a rule fires for a market, with the guards as the analyzer writes
      them (the pricing guard also asks for a non-zero price). */
  predicate Fires(r: Rule, m: Market) {
    match r
    case VolumeRule => Volume(m) > 1000000.0
    case LiquidityRule => Liquidity(m) > 100000.0
    case PricingRule =>
      var p := CurrentPrice(m);
      p != 0.0 && 0.40 <= p <= 0.60
    case TimeframeRule =>
      m.endDate.Some? && 7 <= DaysUntil(m.endDate.value) <= 90
  }

  /** Decimal text of an integer, as Python's f-string prints it. */
  function IntText(n: int): string {
    if n < 0 then "-" + NatText(-n) else NatText(n)
  }

  function NatText(n: nat): string
    decreases n
  {
    if n < 10 then ["0123456789"[n]] else NatText(n / 10) + ["0123456789"[n % 10]]
  }

  /** The reason a rule appends when it fires. */
  function ReasonText(r: Rule, m: Market): string {
    match r
    case VolumeRule => "High volume market"
    case LiquidityRule => "Good liquidity"
    case PricingRule => "Fair pricing, room for movement"
    case TimeframeRule =>
      "Good timeframe (" + IntText(if m.endDate.Some? then DaysUntil(m.endDate.value) else 0) + " days)"
  }

  /** The points a rule adds: its value when it fires, nothing otherwise. */
  function Bonus(r: Rule, m: Market): int {
    if Fires(r, m) then Points(r) else 0
  }

  /** The reason a rule appends: one text when it fires, none otherwise. */
  function ReasonIfFires(r: Rule, m: Market): seq<string> {
    if Fires(r, m) then [ReasonText(r, m)] else []
  }

  /** The recommendation band of a score. */
  function Recommend(score: int): (rec: Recommendation)
    ensures rec == StrongBuy <==> score >= 70
    ensures rec == Buy <==> 50 <= score < 70
    ensures rec == Watch <==> 30 <= score < 50
    ensures rec == Skip <==> score < 30
  {
    if score >= 70 then StrongBuy
    else if score >= 50 then Buy
    else if score >= 30 then Watch
    else Skip
  }

  /** The analysis of a market, rule by rule: each rule contributes its bonus
      to the score and its reason to the reasoning, in the fixed order
      volume, liquidity, pricing, timeframe. */
  function Analyze(m: Market): Analysis {
    var score := Bonus(VolumeRule, m) + Bonus(LiquidityRule, m)
               + Bonus(PricingRule, m) + Bonus(TimeframeRule, m);
    var reasoning := ReasonIfFires(VolumeRule, m) + ReasonIfFires(LiquidityRule, m)
                   + ReasonIfFires(PricingRule, m) + ReasonIfFires(TimeframeRule, m);
    Analysis(m.id, m.question, Volume(m), Liquidity(m), CurrentPrice(m),
             score, Recommend(score), reasoning)
  }

  /** `analyze_market`: the analysis is built step by step, as the analyzer
      does, adding points and appending reasons rule after rule. */
  method AnalyzeMarket(m: Market) returns (a: Analysis)
    ensures a == Analyze(m)
  {
    a := Analysis(m.id, m.question, Volume(m), Liquidity(m), CurrentPrice(m), 0, Skip, []);
    var score := 0;
    if a.volume > 1000000.0 {
      score := score + 30;
      a := a.(reasoning := a.reasoning + ["High volume market"]);
    }
    ghost var reasons := ReasonIfFires(VolumeRule, m);
    assert score == Bonus(VolumeRule, m) && a.reasoning == reasons;
    if a.liquidity > 100000.0 {
      score := score + 20;
      a := a.(reasoning := a.reasoning + ["Good liquidity"]);
    } else {
      AppendEmpty(reasons);
    }
    reasons := reasons + ReasonIfFires(LiquidityRule, m);
    assert score == Bonus(VolumeRule, m) + Bonus(LiquidityRule, m) && a.reasoning == reasons;
    var price := a.currentPrice;
    if price != 0.0 && 0.40 <= price <= 0.60 {
      score := score + 25;
      a := a.(reasoning := a.reasoning + ["Fair pricing, room for movement"]);
    } else {
      AppendEmpty(reasons);
    }
    reasons := reasons + ReasonIfFires(PricingRule, m);
    assert score == Bonus(VolumeRule, m) + Bonus(LiquidityRule, m) + Bonus(PricingRule, m);
    assert a.reasoning == reasons;
    if m.endDate.Some? {
      var daysLeft := DaysUntil(m.endDate.value);
      if 7 <= daysLeft <= 90 {
        score := score + 15;
        a := a.(reasoning := a.reasoning + ["Good timeframe (" + IntText(daysLeft) + " days)"]);
      }
    }
    if !Fires(TimeframeRule, m) {
      AppendEmpty(reasons);
    }
    assert a.reasoning == reasons + ReasonIfFires(TimeframeRule, m);
    a := a.(score := score);
    if score >= 70 {
      a := a.(recommendation := StrongBuy);
    } else if score >= 50 {
      a := a.(recommendation := Buy);
    } else if score >= 30 {
      a := a.(recommendation := Watch);
    }
  }

  // ---------------------------------------------------------------------------
  // Properties of a single analysis
  // ---------------------------------------------------------------------------

  /** A one-rule list when the rule fires, else empty. */
  function IfFires(r: Rule, m: Market): seq<Rule> {
    if Fires(r, m) then [r] else []
  }

  /** The rules that fire for a market, in evaluation order. */
  function FiredRules(m: Market): seq<Rule> {
    IfFires(VolumeRule, m) + IfFires(LiquidityRule, m) + IfFires(PricingRule, m) + IfFires(TimeframeRule, m)
  }

  function TotalPoints(rules: seq<Rule>): int {
    if rules == [] then 0 else Points(rules[0]) + TotalPoints(rules[1..])
  }

  lemma {:induction false} TotalPointsAppend(a: seq<Rule>, b: seq<Rule>)
    ensures TotalPoints(a + b) == TotalPoints(a) + TotalPoints(b)
    decreases |a|
  {
    if a != [] {
      assert (a + b)[0] == a[0];
      assert (a + b)[1..] == a[1..] + b;
      TotalPointsAppend(a[1..], b);
    } else {
      assert a + b == b;
    }
  }

  /** The score is the total of the points of the rules that fire, so it is
      one of the subset sums of 30, 20, 25 and 15 and lies in [0, 90]. */
  lemma ScoreIsSumOfFiredRules(m: Market)
    ensures Analyze(m).score == TotalPoints(FiredRules(m))
    ensures Analyze(m).score in {0, 15, 20, 25, 30, 35, 40, 45, 50, 55, 60, 65, 70, 75, 90}
    ensures 0 <= Analyze(m).score <= 90
  {
    var v, l, p, t := IfFires(VolumeRule, m), IfFires(LiquidityRule, m),
                      IfFires(PricingRule, m), IfFires(TimeframeRule, m);
    TotalPointsAppend(v + l + p, t);
    TotalPointsAppend(v + l, p);
    TotalPointsAppend(v, l);
    RuleTotal(VolumeRule, m);
    RuleTotal(LiquidityRule, m);
    RuleTotal(PricingRule, m);
    RuleTotal(TimeframeRule, m);
  }

  lemma RuleTotal(r: Rule, m: Market)
    ensures TotalPoints(IfFires(r, m)) == Bonus(r, m)
  {
    if Fires(r, m) {
      assert TotalPoints([r]) == Points(r) + TotalPoints([r][1..]);
      assert [r][1..] == [];
    }
  }

  /** The reason texts of a list of rules, in list order. */
  function ReasonsOf(rules: seq<Rule>, m: Market): (texts: seq<string>)
    ensures |texts| == |rules|
  {
    if rules == [] then [] else [ReasonText(rules[0], m)] + ReasonsOf(rules[1..], m)
  }

  lemma {:induction false} ReasonsOfAppend(a: seq<Rule>, b: seq<Rule>, m: Market)
    ensures ReasonsOf(a + b, m) == ReasonsOf(a, m) + ReasonsOf(b, m)
    decreases |a|
  {
    if a == [] {
      assert a + b == b;
    } else {
      ConsParts(a[0], a[1..] + b);
      assert a + b == [a[0]] + (a[1..] + b);
      ReasonsOfAppend(a[1..], b, m);
      AppendAssoc([ReasonText(a[0], m)], ReasonsOf(a[1..], m), ReasonsOf(b, m));
    }
  }

  lemma RuleReasons(r: Rule, m: Market)
    ensures ReasonsOf(IfFires(r, m), m) == ReasonIfFires(r, m)
  {
    if Fires(r, m) {
      assert [r][1..] == [];
    }
  }

  /** The reasoning holds exactly one text per rule that fires, in the order
      volume, liquidity, pricing, timeframe. */
  lemma ReasoningFollowsRules(m: Market)
    ensures Analyze(m).reasoning == ReasonsOf(FiredRules(m), m)
  {
    var v, l, p, t := IfFires(VolumeRule, m), IfFires(LiquidityRule, m),
                      IfFires(PricingRule, m), IfFires(TimeframeRule, m);
    ReasonsOfAppend(v + l + p, t, m);
    ReasonsOfAppend(v + l, p, m);
    ReasonsOfAppend(v, l, m);
    RuleReasons(VolumeRule, m);
    RuleReasons(LiquidityRule, m);
    RuleReasons(PricingRule, m);
    RuleReasons(TimeframeRule, m);
  }

  /** The recommendation never goes down as the score goes up. */
  lemma RecommendationMonotone(s1: int, s2: int)
    requires s1 <= s2
    ensures Recommend(s1).Rank() <= Recommend(s2).Rank()
  {
  }

  /** The pricing rule fires exactly for a current price in [0.40, 0.60]; a
      market without outcomes reports price 0 and never gets the bonus. */
  lemma PricingRuleBand(m: Market)
    ensures Fires(PricingRule, m) <==> 0.40 <= CurrentPrice(m) <= 0.60
    ensures m.outcomes == [] ==> Analyze(m).currentPrice == 0.0 && !Fires(PricingRule, m)
  {
  }

  /** The timeframe rule fires exactly for a parsed end date 7 to 90 days
      away; an absent or unparsable date never gets the bonus. */
  lemma TimeframeRuleBand(m: Market)
    ensures Fires(TimeframeRule, m)
        <==> m.endDate.Some? && m.endDate.value.Parsed? && 7 <= m.endDate.value.daysLeft <= 90
  {
  }

  // ---------------------------------------------------------------------------
  // Scanning: filter by threshold, then order by score
  // ---------------------------------------------------------------------------

  /** The analyses, in fetch order, whose score meets `minScore`. */
  function Qualifying(markets: seq<Market>, minScore: int): (qs: seq<Analysis>)
    ensures |qs| <= |markets|
    decreases |markets|
  {
    if markets == [] then []
    else
      var a := Analyze(markets[|markets| - 1]);
      Qualifying(markets[..|markets| - 1], minScore) + (if a.score >= minScore then [a] else [])
  }

  /** Every qualifying analysis is the analysis of a fetched market and meets
      the threshold. */
  lemma {:induction false} QualifyingSound(markets: seq<Market>, minScore: int, a: Analysis) returns (i: nat)
    requires a in Qualifying(markets, minScore)
    ensures a.score >= minScore
    ensures i < |markets| && Analyze(markets[i]) == a
    decreases |markets|
  {
    var n := |markets| - 1;
    var last := Analyze(markets[n]);
    var init := Qualifying(markets[..n], minScore);
    var tail := if last.score >= minScore then [last] else [];
    assert Qualifying(markets, minScore) == init + tail;
    InAppend(a, init, tail);
    if a in init {
      i := QualifyingSound(markets[..n], minScore, a);
      PrefixAt(markets, n, i);
    } else {
      i := n;
    }
  }

  /** Every fetched market whose analysis meets the threshold qualifies. */
  lemma {:induction false} QualifyingComplete(markets: seq<Market>, minScore: int, i: nat)
    requires i < |markets| && Analyze(markets[i]).score >= minScore
    ensures Analyze(markets[i]) in Qualifying(markets, minScore)
    decreases |markets|
  {
    var n := |markets| - 1;
    var last := Analyze(markets[n]);
    var init := Qualifying(markets[..n], minScore);
    var tail := if last.score >= minScore then [last] else [];
    assert Qualifying(markets, minScore) == init + tail;
    InAppend(Analyze(markets[i]), init, tail);
    if i < n {
      PrefixAt(markets, n, i);
      QualifyingComplete(markets[..n], minScore, i);
    } else {
      assert tail == [Analyze(markets[i])];
    }
  }

  /** All qualifying analyses meet the threshold. */
  lemma QualifyingScores(markets: seq<Market>, minScore: int)
    ensures forall a :: a in Qualifying(markets, minScore) ==> a.score >= minScore
  {
    forall a | a in Qualifying(markets, minScore) ensures a.score >= minScore {
      var _ := QualifyingSound(markets, minScore, a);
    }
  }

  ghost predicate SortedByScore(s: seq<Analysis>) {
    forall i, j :: 0 <= i < j < |s| ==> s[i].score >= s[j].score
  }

  /** Inserts `x` into a list ordered by score, before the first entry whose
      score does not exceed its own. */
  function Insert(x: Analysis, s: seq<Analysis>): (r: seq<Analysis>)
    requires SortedByScore(s)
    ensures SortedByScore(r)
    ensures multiset(r) == multiset(s) + multiset{x}
    ensures |r| == |s| + 1
    ensures r[0] == x || (s != [] && r[0] == s[0])
  {
    if s == [] || x.score >= s[0].score then
      ConsSorted(x, s);
      MultisetCons(x, s);
      [x] + s
    else
      MultisetHead(s);
      SortedTail(s);
      var rest := Insert(x, s[1..]);
      ConsSorted(s[0], rest);
      MultisetCons(s[0], rest);
      [s[0]] + rest
  }

  lemma SortedTail(s: seq<Analysis>)
    requires SortedByScore(s) && s != []
    ensures SortedByScore(s[1..])
    ensures forall k :: 1 <= k < |s| ==> s[0].score >= s[k].score
  {
  }

  lemma ConsSorted(h: Analysis, s: seq<Analysis>)
    requires SortedByScore(s)
    requires s == [] || h.score >= s[0].score
    ensures SortedByScore([h] + s)
  {
    var r := [h] + s;
    forall i, j | 0 <= i < j < |r| ensures r[i].score >= r[j].score {
      if i == 0 {
        assert r[j] == s[j - 1];
        assert s[0].score >= s[j - 1].score || j == 1;
      } else {
        assert r[i] == s[i - 1] && r[j] == s[j - 1];
      }
    }
  }

  /** The analyses ordered by score, highest first (an insertion sort). */
  function SortByScore(s: seq<Analysis>): (r: seq<Analysis>)
    ensures SortedByScore(r)
    ensures multiset(r) == multiset(s)
  {
    if s == [] then []
    else
      assert s == [s[0]] + s[1..];
      Insert(s[0], SortByScore(s[1..]))
  }

  /** The result of a scan: the qualifying analyses, highest score first. */
  function Opportunities(markets: seq<Market>, minScore: int): (opps: seq<Analysis>)
    ensures SortedByScore(opps)
    ensures multiset(opps) == multiset(Qualifying(markets, minScore))
    ensures forall a :: a in opps ==> a.score >= minScore
    ensures markets == [] ==> opps == []
  {
    var opps := SortByScore(Qualifying(markets, minScore));
    QualifyingScores(markets, minScore);
    assert forall a :: a in opps ==> a in multiset(Qualifying(markets, minScore));
    opps
  }

  /** The first opportunity has the highest score of all that qualify. */
  lemma TopOpportunityIsBest(markets: seq<Market>, minScore: int, a: Analysis)
    requires a in Qualifying(markets, minScore)
    ensures Opportunities(markets, minScore) != []
    ensures Opportunities(markets, minScore)[0].score >= a.score
  {
    var opps := Opportunities(markets, minScore);
    assert a in multiset(opps);
    var k :| 0 <= k < |opps| && opps[k] == a;
    assert k == 0 || opps[0].score >= opps[k].score;
  }

  /** `scan_opportunities` with the fetched markets as a parameter: every
      market is analysed in turn, those that meet the threshold are kept, and
      the kept analyses are ordered by score. */
  method ScanOpportunities(markets: seq<Market>, minScore: int) returns (opps: seq<Analysis>)
    ensures opps == Opportunities(markets, minScore)
  {
    var found: seq<Analysis> := [];
    for i := 0 to |markets|
      invariant found == Qualifying(markets[..i], minScore)
    {
      var a := AnalyzeMarket(markets[i]);
      assert markets[..i + 1][..i] == markets[..i];
      if a.score >= minScore {
        found := found + [a];
      }
    }
    assert markets[..|markets|] == markets;
    opps := SortByScore(found);
  }
}
