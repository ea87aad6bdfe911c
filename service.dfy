/** The request handler of acp/service.py: it routes an endpoint name to a
    handler, turns the caller's tier into a score threshold, scans the
    fetched markets, and answers with one signal, a batch of signals, or a
    fixed performance record.

    The service holds no state that changes, so its handlers are functions.
    Each request scans the markets with a fresh analyzer and makes its
    signals with a fresh generator, whose log starts empty; the fetched
    markets and the clock reading are parameters. */
module Service {
  import opened Wrappers
  import opened Analyzer
  import opened Signals

  /** The request parameters the handlers look at: whether a `market_id` is
      given, and the optional `count` of a batch. */
  datatype Params = Params(hasMarketId: bool, count: Option<int>)

  /** The tier-limited view of a signal a "free" caller receives. */
  datatype LimitedView = LimitedView(
    signalId: SignalId,
    marketQuestion: Option<string>,
    action: Action,
    side: Option<Side>,
    confidence: int)

  datatype Last30 = Last30(signals: int, wins: int, losses: int)

  datatype Performance = Performance(
    totalSignals: int,
    winRate: real,
    avgReturn: real,
    last30Days: Last30,
    note: string)

  /** A response record, one alternative per shape the service answers with. */
  datatype Response =
    | ErrorResponse(message: string)
    | FullSignal(signal: Signal)
    | LimitedSignal(view: LimitedView)
    | Batch(count: int, signals: seq<Signal>)
    | PerformanceReport(performance: Performance)

  /** The keys of a full signal record. */
  const SIGNAL_KEYS: set<string> :=
    {"signal_id", "timestamp", "market_id", "market_question", "action", "side", "confidence",
     "entry_price", "target_price", "stop_loss", "position_size", "reasoning", "data"}

  /** The keys of the record a "free" caller receives. */
  const FREE_KEYS: set<string> := {"signal_id", "market_question", "action", "side", "confidence"}

  /** The keys of a response record as it is serialised. */
  function Keys(r: Response): set<string> {
    match r
    case ErrorResponse(_) => {"error"}
    case FullSignal(_) => SIGNAL_KEYS
    case LimitedSignal(_) => FREE_KEYS
    case Batch(_, _) => {"count", "signals"}
    case PerformanceReport(_) =>
      {"total_signals", "win_rate", "avg_return", "last_30_days", "note"}
  }

  /** The threshold of a tier: 70 for "pro", 60 for "premium" and 50 for any
      other string. It is both the scan's minimum score and the generator's
      minimum confidence. */
  function MinScore(tier: string): (minScore: int)
    ensures minScore == 70 <==> tier == "pro"
    ensures minScore == 60 <==> tier == "premium"
    ensures minScore == 50 <==> tier != "pro" && tier != "premium"
  {
    if tier == "pro" then 70 else if tier == "premium" then 60 else 50
  }

  /** The batch size asked for, 5 by default, clamped to 1 for "free" and to
      10 for "premium"; other tiers are not clamped. */
  function BatchCap(count: Option<int>, tier: string): (cap: int)
    ensures tier == "free" ==> cap <= 1 && (cap == 1 || cap == count.GetOr(5))
    ensures tier == "premium" ==> cap <= 10 && (cap == 10 || cap == count.GetOr(5))
    ensures tier != "free" && tier != "premium" ==> cap == count.GetOr(5)
    ensures cap <= count.GetOr(5)
  {
    var requested := count.GetOr(5);
    if tier == "free" then (if requested <= 1 then requested else 1)
    else if tier == "premium" then (if requested <= 10 then requested else 10)
    else requested
  }

  /** The part of a signal a "free" caller sees. */
  function Redact(s: Signal): (v: LimitedView)
    ensures v.signalId == s.id && v.marketQuestion == s.marketQuestion
    ensures v.action == s.action && v.side == s.side && v.confidence == s.confidence
  {
    LimitedView(s.id, s.marketQuestion, s.action, s.side, s.confidence)
  }

  /** `_get_signal`: a `market_id` request is refused before any scan; with
      no qualifying market the answer is an error; otherwise the signal of
      the top opportunity, redacted for "free" only. */
  function GetSignal(params: Params, tier: string, markets: seq<Market>, clock: Clock): (r: Response)
    ensures params.hasMarketId ==> r == ErrorResponse("Specific market lookup not yet implemented")
    ensures !params.hasMarketId && Opportunities(markets, MinScore(tier)) == [] ==>
              r == ErrorResponse("No opportunities found")
    ensures !params.hasMarketId && Opportunities(markets, MinScore(tier)) != [] ==>
              var s := SignalFor(Opportunities(markets, MinScore(tier))[0], MinScore(tier), 0, clock);
              r == if tier == "free" then LimitedSignal(Redact(s)) else FullSignal(s)
  {
    if params.hasMarketId then ErrorResponse("Specific market lookup not yet implemented")
    else
      var minScore := MinScore(tier);
      var opportunities := Opportunities(markets, minScore);
      if opportunities == [] then ErrorResponse("No opportunities found")
      else
        var signal := SignalFor(opportunities[0], minScore, 0, clock);
        if tier == "free" then LimitedSignal(Redact(signal)) else FullSignal(signal)
  }

  /** `_get_batch`: the opportunities go through a fresh generator's batch
      with the tier's cap; the answer is the kept signals and their number,
      never an error and never redacted. */
  function GetBatch(params: Params, tier: string, markets: seq<Market>, clock: Clock): (r: Response)
    ensures r.Batch? && r.count == |r.signals|
    ensures r.signals == Trades(Examined(Opportunities(markets, MinScore(tier)), MinScore(tier), 0, clock,
                                         BatchCap(params.count, tier)))
  {
    var count := BatchCap(params.count, tier);
    var minScore := MinScore(tier);
    var opportunities := Opportunities(markets, minScore);
    var signals := Trades(Examined(opportunities, minScore, 0, clock, count));
    Batch(|signals|, signals)
  }

  /** `_get_performance`: the track record is not kept yet, so every metric
      is zero. */
  function GetPerformance(): (p: Performance)
    ensures p.totalSignals == 0 && p.winRate == 0.0 && p.avgReturn == 0.0
    ensures p.last30Days == Last30(0, 0, 0)
  {
    Performance(0, 0.0, 0.0, Last30(0, 0, 0), "Track record system coming soon")
  }

  /** `handle_request`: the three endpoint names go to their handlers and
      anything else is answered with the unknown-endpoint error. */
  function HandleRequest(endpoint: string, params: Params, tier: string, markets: seq<Market>,
                         clock: Clock): (r: Response)
    ensures endpoint == "get_signal" ==> r == GetSignal(params, tier, markets, clock)
    ensures endpoint == "get_batch" ==> r == GetBatch(params, tier, markets, clock)
    ensures endpoint == "get_performance" ==> r == PerformanceReport(GetPerformance())
    ensures endpoint !in {"get_signal", "get_batch", "get_performance"} ==>
              r == ErrorResponse("Unknown endpoint") && Keys(r) == {"error"}
  {
    if endpoint == "get_signal" then GetSignal(params, tier, markets, clock)
    else if endpoint == "get_batch" then GetBatch(params, tier, markets, clock)
    else if endpoint == "get_performance" then PerformanceReport(GetPerformance())
    else ErrorResponse("Unknown endpoint")
  }

  // ---------------------------------------------------------------------------
  // Properties of the handlers
  // ---------------------------------------------------------------------------

  /** A request is answered with an error exactly when the endpoint is
      unknown, or a single signal is asked for by market id or with no
      qualifying market; a batch is never an error, even an empty one. */
  lemma ErrorCases(endpoint: string, params: Params, tier: string, markets: seq<Market>, clock: Clock)
    ensures HandleRequest(endpoint, params, tier, markets, clock).ErrorResponse?
            <==> || endpoint !in {"get_signal", "get_batch", "get_performance"}
                 || (endpoint == "get_signal"
                     && (params.hasMarketId || Opportunities(markets, MinScore(tier)) == []))
  {
  }

  /** A single signal, when one is returned, is always a TRADE: every
      opportunity scores at least the threshold, the threshold is at most
      100, and confidence is never below the score capped at 100. */
  lemma SignalIsTrade(params: Params, tier: string, markets: seq<Market>, clock: Clock)
    ensures var r := GetSignal(params, tier, markets, clock);
            && (r.FullSignal? ==> r.signal.action == Trade && r.signal.side.Some?)
            && (r.LimitedSignal? ==> r.view.action == Trade && r.view.side.Some?)
  {
    var minScore := MinScore(tier);
    var opps := Opportunities(markets, minScore);
    if !params.hasMarketId && opps != [] {
      assert opps[0] in opps;
      assert opps[0].score >= minScore;
      assert Confidence(opps[0]) >= minScore;
    }
  }

  /** A "free" caller gets exactly the five keys signal_id, market_question,
      action, side and confidence, a strict part of the full signal's keys;
      any other tier string gets the full signal. */
  lemma FreeTierIsRedacted(params: Params, tier: string, markets: seq<Market>, clock: Clock)
    requires !params.hasMarketId && Opportunities(markets, MinScore(tier)) != []
    ensures var r := GetSignal(params, tier, markets, clock);
            && (tier == "free" ==> r.LimitedSignal? && Keys(r) == FREE_KEYS)
            && (tier != "free" ==> r.FullSignal? && Keys(r) == SIGNAL_KEYS)
            && FREE_KEYS < SIGNAL_KEYS
  {
    assert "timestamp" in SIGNAL_KEYS - FREE_KEYS;
  }

  /** The signal comes from the best opportunity: its score is at least that
      of every fetched market that meets the tier's threshold. */
  lemma SignalFromTopOpportunity(params: Params, tier: string, markets: seq<Market>, clock: Clock, i: nat)
    requires !params.hasMarketId
    requires i < |markets| && Analyze(markets[i]).score >= MinScore(tier)
    ensures var r := GetSignal(params, tier, markets, clock);
            r.FullSignal? || r.LimitedSignal?
    ensures var r := GetSignal(params, tier, markets, clock);
            r.FullSignal? ==> r.signal.data.opportunityScore >= Analyze(markets[i]).score
  {
    QualifyingComplete(markets, MinScore(tier), i);
    TopOpportunityIsBest(markets, MinScore(tier), Analyze(markets[i]));
  }

  /** A batch holds at most `max(cap, 1)` signals (so at most 1 for "free"
      and at most 10 for "premium"), all TRADE signals numbered in
      increasing order; its count is its length. */
  lemma BatchBounds(params: Params, tier: string, markets: seq<Market>, clock: Clock)
    ensures var r := GetBatch(params, tier, markets, clock);
            && r.count == |r.signals|
            && r.count <= MaxInt(BatchCap(params.count, tier), 1)
            && (tier == "free" ==> r.count <= 1)
            && (tier == "premium" ==> r.count <= 10)
            && (forall s :: s in r.signals ==> s.action == Trade)
            && SubsequenceOf(r.signals, Examined(Opportunities(markets, MinScore(tier)), MinScore(tier), 0,
                                                 clock, BatchCap(params.count, tier)))
  {
    var minScore := MinScore(tier);
    var cap := BatchCap(params.count, tier);
    var opps := Opportunities(markets, minScore);
    var examined := Examined(opps, minScore, 0, clock, cap);
    ExaminedCap(opps, minScore, 0, clock, cap);
    TradesAreTrades(examined);
    TradesAreSubsequence(examined);
  }

  /** Every opportunity reaches the generator's threshold, so a batch is the
      signals of the first `min(#opportunities, max(cap, 1))` opportunities,
      best first, numbered 0, 1, 2, ... */
  lemma BatchTakesTopOpportunities(params: Params, tier: string, markets: seq<Market>, clock: Clock)
    ensures var r := GetBatch(params, tier, markets, clock);
            var opps := Opportunities(markets, MinScore(tier));
            var cap := MaxInt(BatchCap(params.count, tier), 1);
            && |r.signals| == (if |opps| <= cap then |opps| else cap)
            && (forall k :: 0 <= k < |r.signals| ==>
                  r.signals[k] == SignalFor(opps[k], MinScore(tier), k, clock))
  {
    var minScore := MinScore(tier);
    var cap := BatchCap(params.count, tier);
    var opps := Opportunities(markets, minScore);
    forall a | a in opps ensures Confidence(a) >= minScore {
      assert a.score >= minScore;
    }
    ExaminedCap(opps, minScore, 0, clock, cap);
    ExaminedInOrder(opps, minScore, 0, clock, cap);
  }

  /** With nothing fetched, a batch is empty with count 0, not an error. */
  lemma EmptyFetchGivesEmptyBatch(params: Params, tier: string, clock: Clock)
    ensures GetBatch(params, tier, [], clock) == Batch(0, [])
  {
    assert Opportunities([], MinScore(tier)) == [];
  }
}
