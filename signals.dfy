/** The signal generator of signals/signal_generator.py: an analysis becomes
    a trading signal with a confidence, an action, a side, target and stop
    prices and a position size, and every generated signal is appended to the
    generator's log, whose length numbers the signal identifiers.

    Prices, volumes and liquidity are exact reals; the wall clock is a
    parameter (a `Clock` reading) rather than a call. */
module Signals {
  import opened Wrappers
  import opened Analyzer
  import opened Seqs

  datatype Action = SkipAction | Trade {
    function Label(): string {
      match this
      case SkipAction => "SKIP"
      case Trade => "TRADE"
    }
  }

  datatype Side = Yes | No {
    function Label(): string {
      match this
      case Yes => "YES"
      case No => "NO"
    }
  }

  /** One reading of the UTC clock, in the two formats the generator uses:
      the compact `%Y%m%d%H%M%S` form of identifiers and the ISO form of the
      signal's timestamp. */
  datatype Clock = Clock(compact: string, iso: string)

  /** A signal identifier `SIG-<stamp>-<sequence>`; the sequence number is the
      length of the generator's log when the signal was made. */
  datatype SignalId = SignalId(stamp: string, sequence: nat)

  datatype SupportingData = SupportingData(volume: real, liquidity: real, opportunityScore: int)

  datatype Signal = Signal(
    id: SignalId,
    timestamp: string,
    marketId: Option<string>,
    marketQuestion: Option<string>,
    action: Action,
    side: Option<Side>,
    confidence: int,
    entryPrice: real,
    targetPrice: Option<real>,
    stopLoss: Option<real>,
    positionSize: real,
    reasoning: seq<string>,
    data: SupportingData)

  // ---------------------------------------------------------------------------
  // The pieces of a signal
  // ---------------------------------------------------------------------------

  function Min(x: real, y: real): real { if x <= y then x else y }

  function Max(x: real, y: real): real { if x >= y then x else y }

  function VolumeBonus(volume: real): int {
    if volume > 5000000.0 then 10 else if volume > 2000000.0 then 5 else 0
  }

  function LiquidityBonus(liquidity: real): int {
    if liquidity > 500000.0 then 10 else if liquidity > 200000.0 then 5 else 0
  }

  /** Confidence: the score plus the volume and liquidity bonuses, capped at
      100, that is the smaller of that total and 100. It is never below the
      capped score, and is not negative for a non-negative score. */
  function Confidence(a: Analysis): (c: int)
    ensures c <= 100
    ensures c >= (if a.score <= 100 then a.score else 100)
    ensures a.score >= 0 ==> c >= 0
    ensures c == 100 || c == a.score + VolumeBonus(a.volume) + LiquidityBonus(a.liquidity)
    ensures c <= a.score + VolumeBonus(a.volume) + LiquidityBonus(a.liquidity)
  {
    var total := a.score + VolumeBonus(a.volume) + LiquidityBonus(a.liquidity);
    if total <= 100 then total else 100
  }

  /** The side to take: NO exactly when the price is above 0.60, YES below
      0.40 and, by default, in the band between. */
  function DetermineSide(price: real): (side: Side)
    ensures side == No <==> price > 0.60
  {
    if price < 0.40 then Yes
    else if price > 0.60 then No
    else Yes
  }

  /** Target price: ten cents in the direction of the side, kept inside
      [0.05, 0.95] for any entry price in [0, 1]. */
  function TargetPrice(side: Side, entry: real): (target: real)
    ensures 0.0 <= entry <= 1.0 ==> 0.05 <= target <= 0.95
  {
    match side
    case Yes => Min(entry + 0.10, 0.95)
    case No => Max(entry - 0.10, 0.05)
  }

  /** Stop loss: five cents against the side, kept inside [0.05, 0.95] for
      any entry price in [0, 1]. */
  function StopLoss(side: Side, entry: real): (stop: real)
    ensures 0.0 <= entry <= 1.0 ==> 0.05 <= stop <= 0.95
  {
    match side
    case Yes => Max(entry - 0.05, 0.05)
    case No => Min(entry + 0.05, 0.95)
  }

  /** Fraction of the bankroll to stake, by confidence bracket. */
  function PositionSize(confidence: int): (size: real)
    ensures size == 0.10 <==> confidence >= 90
    ensures size == 0.07 <==> 80 <= confidence < 90
    ensures size == 0.05 <==> 70 <= confidence < 80
    ensures size == 0.03 <==> 60 <= confidence < 70
    ensures size == 0.01 <==> confidence < 60
    ensures size in {0.01, 0.03, 0.05, 0.07, 0.10}
    ensures size > 0.0
  {
    if confidence >= 90 then 0.10
    else if confidence >= 80 then 0.07
    else if confidence >= 70 then 0.05
    else if confidence >= 60 then 0.03
    else 0.01
  }

  /** Larger confidence never gives a smaller position. */
  lemma PositionSizeMonotone(c1: int, c2: int)
    requires c1 <= c2
    ensures PositionSize(c1) <= PositionSize(c2)
  {
  }

  /** The signal a generator with threshold `minConfidence` makes from
      `analysis` when its log holds `sequence` signals. */
  function SignalFor(analysis: Analysis, minConfidence: int, sequence: nat, clock: Clock): (s: Signal)
    ensures s.id == SignalId(clock.compact, sequence)
    ensures s.confidence == Confidence(analysis) && s.confidence <= 100
    ensures s.action == Trade <==> Confidence(analysis) >= minConfidence
    ensures s.action == SkipAction ==>
              s.side == None && s.targetPrice == None && s.stopLoss == None && s.positionSize == 0.0
    ensures s.action == Trade ==>
              && s.side == Some(DetermineSide(analysis.currentPrice))
              && s.targetPrice == Some(TargetPrice(s.side.value, analysis.currentPrice))
              && s.stopLoss == Some(StopLoss(s.side.value, analysis.currentPrice))
              && s.positionSize == PositionSize(s.confidence) && s.positionSize > 0.0
    ensures s.entryPrice == analysis.currentPrice && s.reasoning == analysis.reasoning
    ensures s.marketId == analysis.marketId && s.marketQuestion == analysis.question
    ensures s.timestamp == clock.iso
    ensures s.data == SupportingData(analysis.volume, analysis.liquidity, analysis.score)
  {
    var c := Confidence(analysis);
    var p := analysis.currentPrice;
    var data := SupportingData(analysis.volume, analysis.liquidity, analysis.score);
    var id := SignalId(clock.compact, sequence);
    if c >= minConfidence then
      var side := DetermineSide(p);
      Signal(id, clock.iso, analysis.marketId, analysis.question, Trade, Some(side), c, p,
             Some(TargetPrice(side, p)), Some(StopLoss(side, p)), PositionSize(c), analysis.reasoning, data)
    else
      Signal(id, clock.iso, analysis.marketId, analysis.question, SkipAction, None, c, p,
             None, None, 0.0, analysis.reasoning, data)
  }

  /** For an entry price in [0, 1], a trade's target and stop lie in [0.05, 0.95]. */
  lemma TradeLevelsInRange(analysis: Analysis, minConfidence: int, sequence: nat, clock: Clock)
    requires 0.0 <= analysis.currentPrice <= 1.0
    ensures var s := SignalFor(analysis, minConfidence, sequence, clock);
            s.action == Trade ==>
              0.05 <= s.targetPrice.value <= 0.95 && 0.05 <= s.stopLoss.value <= 0.95
  {
  }

  // ---------------------------------------------------------------------------
  // Logs of signals and batches
  // ---------------------------------------------------------------------------

  /** The sequence numbers of `log` run `start`, `start + 1`, ... */
  ghost predicate NumberedFrom(log: seq<Signal>, start: nat) {
    forall i :: 0 <= i < |log| ==> log[i].id.sequence == start + i
  }

  /** Signals of a consecutively numbered log carry strictly increasing, and
      hence distinct, sequence numbers. */
  lemma NumberedIdsIncrease(log: seq<Signal>, start: nat, i: int, j: int)
    requires NumberedFrom(log, start)
    requires 0 <= i < j < |log|
    ensures log[i].id.sequence < log[j].id.sequence
    ensures log[i].id != log[j].id
  {
  }

  /** The TRADE signals of a log, in log order. */
  function Trades(log: seq<Signal>): (trades: seq<Signal>)
    ensures |trades| <= |log|
  {
    if log == [] then []
    else (if log[0].action == Trade then [log[0]] else []) + Trades(log[1..])
  }

  /** Every kept signal is a TRADE taken from the log. */
  lemma {:induction false} TradesAreTrades(log: seq<Signal>)
    ensures forall s :: s in Trades(log) ==> s.action == Trade && s in log
    decreases |log|
  {
    if log != [] {
      TradesAreTrades(log[1..]);
    }
  }

  lemma {:induction false} TradesAppend(a: seq<Signal>, b: seq<Signal>)
    ensures Trades(a + b) == Trades(a) + Trades(b)
    decreases |a|
  {
    if a == [] {
      assert a + b == b;
    } else {
      var head := if a[0].action == Trade then [a[0]] else [];
      assert (a + b)[0] == a[0];
      assert (a + b)[1..] == a[1..] + b;
      TradesAppend(a[1..], b);
      calc {
        Trades(a + b);
        head + Trades(a[1..] + b);
        head + (Trades(a[1..]) + Trades(b));
        (head + Trades(a[1..])) + Trades(b);
      }
    }
  }

  /** `xs` is `ys` with some elements left out, order kept. */
  predicate SubsequenceOf(xs: seq<Signal>, ys: seq<Signal>)
    decreases |ys|
  {
    if xs == [] then true
    else if ys == [] then false
    else if xs[0] == ys[0] then SubsequenceOf(xs[1..], ys[1..])
    else SubsequenceOf(xs, ys[1..])
  }

  /** The trades of a log are a subsequence of it. */
  lemma {:induction false} TradesAreSubsequence(log: seq<Signal>)
    ensures SubsequenceOf(Trades(log), log)
    decreases |log|
  {
    if log != [] {
      TradesAreSubsequence(log[1..]);
      var trades := Trades(log);
      if log[0].action == Trade {
        assert trades[1..] == Trades(log[1..]);
      } else if trades != [] {
        assert trades == Trades(log[1..]);
        TradesAreTrades(log[1..]);
        assert trades[0] in trades;
        assert trades[0] != log[0];
      }
    }
  }

  /** The signals the analyses would give one after the other, the first one
      numbered `start`, if none were left unexamined. */
  function Candidates(analyses: seq<Analysis>, minConfidence: int, start: nat, clock: Clock): (log: seq<Signal>)
    ensures |log| == |analyses|
    decreases |analyses|
  {
    if analyses == [] then []
    else [SignalFor(analyses[0], minConfidence, start, clock)]
         + Candidates(analyses[1..], minConfidence, start + 1, clock)
  }

  lemma {:induction false} CandidateAt(analyses: seq<Analysis>, minConfidence: int, start: nat, clock: Clock, i: nat)
    requires i < |analyses|
    ensures Candidates(analyses, minConfidence, start, clock)[i] == SignalFor(analyses[i], minConfidence, start + i, clock)
    decreases i
  {
    if i > 0 {
      CandidateAt(analyses[1..], minConfidence, start + 1, clock, i - 1);
      assert analyses[1..][i - 1] == analyses[i];
    }
  }

  /** The part of `log` a batch examines when `kept` TRADE signals are
      already kept: up to and including the TRADE that brings the number kept
      to `maxSignals`, or all of it. */
  function Cut(log: seq<Signal>, maxSignals: int, kept: nat): (examined: seq<Signal>)
    ensures |examined| <= |log|
    decreases |log|
  {
    if log == [] then []
    else if log[0].action == Trade && kept + 1 >= maxSignals then [log[0]]
    else [log[0]] + Cut(log[1..], maxSignals, if log[0].action == Trade then kept + 1 else kept)
  }

  /** A batch examines a prefix of the signals. */
  lemma {:induction false} CutIsPrefix(log: seq<Signal>, maxSignals: int, kept: nat)
    ensures var examined := Cut(log, maxSignals, kept); examined == log[..|examined|]
    decreases |log|
  {
    if log != [] && !(log[0].action == Trade && kept + 1 >= maxSignals) {
      var next := if log[0].action == Trade then kept + 1 else kept;
      CutIsPrefix(log[1..], maxSignals, next);
      var rest := Cut(log[1..], maxSignals, next);
      assert log[1..][..|rest|] == log[1..|rest| + 1];
    }
  }

  /** The signals a batch generates from `analyses`, the first one numbered
      `start`: one per analysis examined, stopping right after the TRADE that
      brings the number kept to `maxSignals`. */
  function Examined(analyses: seq<Analysis>, minConfidence: int, start: nat, clock: Clock,
                    maxSignals: int): (log: seq<Signal>)
    ensures |log| <= |analyses|
  {
    Cut(Candidates(analyses, minConfidence, start, clock), maxSignals, 0)
  }

  /** The examined signals are those the analyses produce in input order,
      numbered consecutively from `start`. */
  lemma ExaminedInOrder(analyses: seq<Analysis>, minConfidence: int, start: nat, clock: Clock, maxSignals: int)
    ensures var log := Examined(analyses, minConfidence, start, clock, maxSignals);
            && (forall i :: 0 <= i < |log| ==> log[i] == SignalFor(analyses[i], minConfidence, start + i, clock))
            && NumberedFrom(log, start)
  {
    var all := Candidates(analyses, minConfidence, start, clock);
    var log := Examined(analyses, minConfidence, start, clock, maxSignals);
    CutIsPrefix(all, maxSignals, 0);
    forall i | 0 <= i < |log|
      ensures log[i] == SignalFor(analyses[i], minConfidence, start + i, clock)
    {
      assert log[i] == all[i];
      CandidateAt(analyses, minConfidence, start, clock, i);
    }
  }

  /** One step of a batch, from the loop's point of view: the signal at `i`
      is examined, and the examination goes on after it unless it is the
      TRADE that reaches the cap. */
  lemma CutStep(log: seq<Signal>, i: nat, maxSignals: int, done: seq<Signal>, kept: seq<Signal>)
    requires i < |log| && |done| == i
    requires kept == Trades(done)
    requires Cut(log, maxSignals, 0) == done + Cut(log[i..], maxSignals, |kept|)
    ensures Trades(done + [log[i]]) == kept + (if log[i].action == Trade then [log[i]] else [])
    ensures log[i].action == Trade && |kept| + 1 >= maxSignals ==>
              Cut(log, maxSignals, 0) == done + [log[i]]
    ensures !(log[i].action == Trade && |kept| + 1 >= maxSignals) ==>
              Cut(log, maxSignals, 0)
              == (done + [log[i]]) + Cut(log[i + 1..], maxSignals,
                                         |kept| + (if log[i].action == Trade then 1 else 0))
  {
    var s := log[i];
    var rest := log[i..];
    var k := |kept|;
    SuffixStep(log, i);
    TradesAppend(done, [s]);
    assert Trades([s]) == if s.action == Trade then [s] else [];
    if !(s.action == Trade && k + 1 >= maxSignals) {
      var tail := Cut(log[i + 1..], maxSignals, k + (if s.action == Trade then 1 else 0));
      assert Cut(rest, maxSignals, k) == [s] + tail;
      AppendAssoc(done, [s], tail);
    }
  }

  /** What is left to examine after the first `i` analyses, `kept` TRADE
      signals being kept. */
  function Remaining(analyses: seq<Analysis>, minConfidence: int, start: nat, clock: Clock,
                     maxSignals: int, i: nat, kept: nat): seq<Signal>
    requires i <= |analyses|
  {
    Cut(Candidates(analyses, minConfidence, start, clock)[i..], maxSignals, kept)
  }

  lemma BatchStart(analyses: seq<Analysis>, minConfidence: int, start: nat, clock: Clock, maxSignals: int)
    ensures Examined(analyses, minConfidence, start, clock, maxSignals)
            == [] + Remaining(analyses, minConfidence, start, clock, maxSignals, 0, 0)
  {
    var all := Candidates(analyses, minConfidence, start, clock);
    assert all[0..] == all;
    assert [] + Cut(all, maxSignals, 0) == Cut(all, maxSignals, 0);
  }

  lemma BatchEnd(analyses: seq<Analysis>, minConfidence: int, start: nat, clock: Clock, maxSignals: int,
                 done: seq<Signal>, kept: nat)
    ensures done + Remaining(analyses, minConfidence, start, clock, maxSignals, |analyses|, kept) == done
  {
    var all := Candidates(analyses, minConfidence, start, clock);
    assert all[|analyses|..] == [];
    AppendEmpty(done);
  }

  /** The loop step of a batch: `signal`, made from the analysis at `i`, is
      examined, and the examination goes on after it unless it is the TRADE
      that reaches the cap. */
  lemma BatchAdvance(analyses: seq<Analysis>, minConfidence: int, start: nat, clock: Clock, maxSignals: int,
                     i: nat, done: seq<Signal>, kept: seq<Signal>, signal: Signal)
    requires i < |analyses| && |done| == i
    requires kept == Trades(done)
    requires signal == SignalFor(analyses[i], minConfidence, start + i, clock)
    requires Examined(analyses, minConfidence, start, clock, maxSignals)
             == done + Remaining(analyses, minConfidence, start, clock, maxSignals, i, |kept|)
    ensures Trades(done + [signal]) == kept + (if signal.action == Trade then [signal] else [])
    ensures signal.action == Trade && |kept| + 1 >= maxSignals ==>
              Examined(analyses, minConfidence, start, clock, maxSignals) == done + [signal]
    ensures !(signal.action == Trade && |kept| + 1 >= maxSignals) ==>
              Examined(analyses, minConfidence, start, clock, maxSignals)
              == (done + [signal]) + Remaining(analyses, minConfidence, start, clock, maxSignals, i + 1,
                                               |kept| + (if signal.action == Trade then 1 else 0))
  {
    var all := Candidates(analyses, minConfidence, start, clock);
    CandidateAt(analyses, minConfidence, start, clock, i);
    CutStep(all, i, maxSignals, done, kept);
  }

  function MaxInt(x: int, y: int): int { if x >= y then x else y }

  /** A batch keeps at most `max(maxSignals, 1)` signals in all, since the cap
      is only checked after a TRADE has been kept; when it stops before the
      end it has just kept the TRADE that reaches that cap. */
  lemma {:induction false} CutCap(log: seq<Signal>, maxSignals: int, kept: nat)
    ensures var examined := Cut(log, maxSignals, kept);
            && kept + |Trades(examined)| <= MaxInt(maxSignals, kept + 1)
            && (|examined| < |log| ==>
                  && examined != [] && examined[|examined| - 1].action == Trade
                  && kept + |Trades(examined)| == MaxInt(maxSignals, kept + 1))
    decreases |log|
  {
    if log != [] && !(log[0].action == Trade && kept + 1 >= maxSignals) {
      var next := if log[0].action == Trade then kept + 1 else kept;
      CutCap(log[1..], maxSignals, next);
      TradesAppend([log[0]], Cut(log[1..], maxSignals, next));
    }
  }

  /** When every signal is a TRADE, a batch keeps as many as there are, up to
      the cap. */
  lemma {:induction false} CutAllTrade(log: seq<Signal>, maxSignals: int, kept: nat)
    requires forall i :: 0 <= i < |log| ==> log[i].action == Trade
    ensures var examined := Cut(log, maxSignals, kept);
            var cap := MaxInt(maxSignals - kept, 1);
            Trades(examined) == examined && |examined| == if |log| <= cap then |log| else cap
    decreases |log|
  {
    if log != [] {
      assert log[0].action == Trade;
      if !(kept + 1 >= maxSignals) {
        assert forall i :: 0 <= i < |log[1..]| ==> log[1..][i] == log[i + 1];
        CutAllTrade(log[1..], maxSignals, kept + 1);
        TradesAppend([log[0]], Cut(log[1..], maxSignals, kept + 1));
      }
    }
  }

  /** A batch keeps at most `max(maxSignals, 1)` signals; when every analysis
      reaches the confidence threshold it keeps exactly `min(|analyses|,
      max(maxSignals, 1))`, all of them TRADE signals. */
  lemma ExaminedCap(analyses: seq<Analysis>, minConfidence: int, start: nat, clock: Clock, maxSignals: int)
    ensures |Trades(Examined(analyses, minConfidence, start, clock, maxSignals))| <= MaxInt(maxSignals, 1)
    ensures (forall a :: a in analyses ==> Confidence(a) >= minConfidence) ==>
              var examined := Examined(analyses, minConfidence, start, clock, maxSignals);
              var cap := MaxInt(maxSignals, 1);
              Trades(examined) == examined && |examined| == if |analyses| <= cap then |analyses| else cap
  {
    var all := Candidates(analyses, minConfidence, start, clock);
    CutCap(all, maxSignals, 0);
    if forall a :: a in analyses ==> Confidence(a) >= minConfidence {
      forall i | 0 <= i < |all| ensures all[i].action == Trade {
        CandidateAt(analyses, minConfidence, start, clock, i);
        assert analyses[i] in analyses;
      }
      CutAllTrade(all, maxSignals, 0);
    }
  }

  // ---------------------------------------------------------------------------
  // The generator
  // ---------------------------------------------------------------------------

  /** `SignalGenerator`: a confidence threshold and the log of every signal it
      has made. */
  class SignalGenerator {
    const minConfidence: int
    var signalsGenerated: seq<Signal>

    /** The log is numbered 0, 1, 2, ... in the order the signals were made. */
    ghost predicate Valid()
      reads this
    {
      NumberedFrom(signalsGenerated, 0)
    }

    constructor (minConfidence: int)
      ensures Valid()
      ensures this.minConfidence == minConfidence && signalsGenerated == []
    {
      this.minConfidence := minConfidence;
      signalsGenerated := [];
    }

    /** `_calculate_confidence`: the bonuses are added to an accumulator that
        is then capped at 100. */
    method CalculateConfidence(analysis: Analysis) returns (confidence: int)
      ensures confidence == Confidence(analysis)
    {
      var score := analysis.score;
      if analysis.volume > 5000000.0 {
        score := score + 10;
      } else if analysis.volume > 2000000.0 {
        score := score + 5;
      }
      if analysis.liquidity > 500000.0 {
        score := score + 10;
      } else if analysis.liquidity > 200000.0 {
        score := score + 5;
      }
      confidence := if score <= 100 then score else 100;
    }

    /** `generate_signal`: the signal starts as a SKIP and is filled in when
        the confidence reaches the threshold; it is then appended to the log,
        whose former length is its sequence number. */
    method GenerateSignal(analysis: Analysis, clock: Clock) returns (signal: Signal)
      requires Valid()
      modifies this
      ensures Valid()
      ensures signal == SignalFor(analysis, minConfidence, |old(signalsGenerated)|, clock)
      ensures signalsGenerated == old(signalsGenerated) + [signal]
    {
      var id := SignalId(clock.compact, |signalsGenerated|);
      signal := Signal(id, clock.iso, analysis.marketId, analysis.question, SkipAction, None, 0,
                       analysis.currentPrice, None, None, 0.0, analysis.reasoning,
                       SupportingData(analysis.volume, analysis.liquidity, analysis.score));
      var confidence := CalculateConfidence(analysis);
      signal := signal.(confidence := confidence);
      if confidence >= minConfidence {
        var side := DetermineSide(analysis.currentPrice);
        signal := signal.(action := Trade, side := Some(side));
        var price := analysis.currentPrice;
        if side == Yes {
          signal := signal.(targetPrice := Some(Min(price + 0.10, 0.95)),
                            stopLoss := Some(Max(price - 0.05, 0.05)));
        } else {
          signal := signal.(targetPrice := Some(Max(price - 0.10, 0.05)),
                            stopLoss := Some(Min(price + 0.05, 0.95)));
        }
        signal := signal.(positionSize := PositionSize(confidence));
      }
      signalsGenerated := signalsGenerated + [signal];
    }

    /** `generate_batch`: signals are made from the analyses in order; the
        TRADE ones are kept, and the loop stops once `maxSignals` are kept.
        Every examined analysis, SKIP or TRADE, adds one signal to the log. */
    method GenerateBatch(analyses: seq<Analysis>, maxSignals: int, clock: Clock) returns (signals: seq<Signal>)
      requires Valid()
      modifies this
      ensures Valid()
      ensures var examined := Examined(analyses, minConfidence, |old(signalsGenerated)|, clock, maxSignals);
              && signalsGenerated == old(signalsGenerated) + examined
              && signals == Trades(examined)
    {
      ghost var start := |signalsGenerated|;
      ghost var done: seq<Signal> := [];
      signals := [];
      var i := 0;
      BatchStart(analyses, minConfidence, start, clock, maxSignals);
      while i < |analyses|
        invariant 0 <= i <= |analyses| && |done| == i
        invariant Valid()
        invariant signalsGenerated == old(signalsGenerated) + done
        invariant signals == Trades(done)
        invariant Examined(analyses, minConfidence, start, clock, maxSignals)
                  == done + Remaining(analyses, minConfidence, start, clock, maxSignals, i, |signals|)
      {
        var signal := GenerateSignal(analyses[i], clock);
        BatchAdvance(analyses, minConfidence, start, clock, maxSignals, i, done, signals, signal);
        AppendAssoc(old(signalsGenerated), done, [signal]);
        done := done + [signal];
        if signal.action == Trade {
          signals := signals + [signal];
          if |signals| >= maxSignals {
            return;
          }
        }
        i := i + 1;
      }
      BatchEnd(analyses, minConfidence, start, clock, maxSignals, done, |signals|);
    }
  }

  /** A market with volume 2,000,000, liquidity 150,000, price 0.45 and 30
      days left: all four rules fire, but a volume of exactly 2,000,000 earns
      no volume bonus because that guard is strict, so confidence is 90. */
  lemma EndToEndExample(clock: Clock)
    ensures var m := Market(None, None, Some(2000000.0), Some(150000.0), [Priced(0.45)], Some(Parsed(30)));
            var a := Analyze(m);
            var s := SignalFor(a, 60, 0, clock);
            && a.score == 90 && a.recommendation == StrongBuy
            && s.confidence == 90 && s.action == Trade && s.side == Some(Yes)
            && s.entryPrice == 0.45 && s.targetPrice == Some(0.55) && s.stopLoss == Some(0.40)
            && s.positionSize == 0.10
            && a.recommendation.Label() == "STRONG BUY" && s.action.Label() == "TRADE"
            && s.side.value.Label() == "YES"
  {
  }

  /** An entry price of 0.92 is above 0.60, so the side is NO: the target is
      0.82 and the stop is capped at 0.95. */
  lemma HighPriceTakesNo()
    ensures TargetPrice(DetermineSide(0.92), 0.92) == 0.82
    ensures StopLoss(DetermineSide(0.92), 0.92) == 0.95
    ensures DetermineSide(0.35) == Yes && DetermineSide(0.70) == No && DetermineSide(0.50) == Yes
    ensures DetermineSide(0.92).Label() == "NO"
  {
  }
}
