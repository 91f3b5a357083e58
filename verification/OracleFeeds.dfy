/** The market on top of the oracles: what the market assumes of a price source, the pools provide. */
module OracleFeeds {
  import opened Util
  import opened TickPriceMath
  import opened ObservationPool
  import opened PoolHistory
  import opened UniswapV3PonsOracle
  import opened Median
  import opened CompositePonsOracle
  import opened CompositeProperties
  import M = MarketTypes
  import Inv = MarketInvariant
  import Spec = MarketSpec
  import History = MarketHistory
  import Pricing = MarketPricing
  import Liveness = MarketLiveness

  /** The whole history of a pool, as it will turn out. */
  datatype Tape = Tape(genesis: nat, ends: seq<int>)

  ghost predicate OnTape(c: Chain, tape: Tape) {
    Summarises(c) && c.genesis == tape.genesis && c.ends <= tape.ends
  }

  function AsQuote(p: Price): M.Quote {
    match p case Priced(price, tick) => M.Quoted(price, tick) case Failed(_) => M.Reverted
  }

  /** The market catches a probe that reverts. */
  function AsProbe(yes: bool): M.Probe { if yes then M.Yes else M.No }

  predicate OnRecord(tape: Tape, instant: nat, window: nat) {
    0 < window && tape.genesis + window <= instant <= tape.genesis + |tape.ends|
  }

  function WindowTick(tape: Tape, baseIsToken0: bool, instant: nat, window: nat): int
    requires OnRecord(tape, instant, window)
  {
    NormalTick(baseIsToken0, tape.ends, instant - window - tape.genesis, instant - tape.genesis)
  }

  function TickPrice(sqrtRatio: int -> nat, tick: int, baseUnit: nat, baseIsToken0: bool): (nat, int) {
    match QuoteAtTick(sqrtRatio, tick, baseUnit, baseIsToken0)
    case None => (0, tick)
    case Some(price) => (price, tick)
  }

  // ---- one pool -----------------------------------------------------------------------

  /** The one price a window can ever have: the price of its floored average end-of-second tick. */
  function SingleReading(o: Adapter, tape: Tape, instant: nat, window: nat): (nat, int) {
    if OnRecord(tape, instant, window)
    then TickPrice(o.sqrtRatio, WindowTick(tape, true, instant, window), o.baseUnit, o.baseIsToken0)
    else (0, 0)
  }

  lemma TapeAverage(c: Chain, tape: Tape, from: nat, to: nat)
    requires c.genesis == tape.genesis && c.ends <= tape.ends && from < to <= |c.ends|
    ensures FlooredAverage(c.ends, from, to) == FlooredAverage(tape.ends, from, to)
  {
    assert c.ends[..to] == tape.ends[..to];
    AverageOfPrefix(c.ends, tape.ends, from, to);
  }

  lemma SingleFeedAnswers(o: Adapter, c: Chain, tape: Tape, instant: nat, window: nat)
    requires ValidAdapter(o) && OnTape(c, tape) && Sound(c.pool, c.Now())
    ensures Pricing.Answers(AsQuote(UniswapV3PonsOracle.PriceAt(o, c.pool, c.Now(), instant, window)),
                            SingleReading(o, tape, instant, window))
  {
    var price := UniswapV3PonsOracle.PriceAt(o, c.pool, c.Now(), instant, window);
    if price.Priced? {
      SingleAnswer(o, c, tape, instant, window, price);
    }
  }

  lemma SingleAnswer(o: Adapter, c: Chain, tape: Tape, instant: nat, window: nat, price: Price)
    requires ValidAdapter(o) && OnTape(c, tape) && Sound(c.pool, c.Now())
    requires price.Priced? && price == UniswapV3PonsOracle.PriceAt(o, c.pool, c.Now(), instant, window)
    ensures SingleReading(o, tape, instant, window) == (price.price, price.tick)
  {
    hide Answer, Exact;
    PricedAnswer(o, c, instant, window);
    AnswerOnTape(o, c.ends, tape, instant, window, price);
  }

  lemma AnswerOnTape(o: Adapter, ends: seq<int>, tape: Tape, instant: nat, window: nat, price: Price)
    requires ends <= tape.ends && 0 < window && tape.genesis + window <= instant <= tape.genesis + |ends|
    requires price.Priced? && price == Answer(o, ends, instant - window - tape.genesis, instant - tape.genesis)
    ensures SingleReading(o, tape, instant, window) == (price.price, price.tick)
  {
    hide FlooredAverage, QuoteAtTick;
    var from, to := instant - window - tape.genesis, instant - tape.genesis;
    assert ends[..to] == tape.ends[..to];
    AverageOfPrefix(ends, tape.ends, from, to);
    QuotedIsTickPrice(o.sqrtRatio, WindowTick(tape, true, instant, window), o.baseUnit, o.baseIsToken0, price);
  }

  lemma QuotedIsTickPrice(sqrtRatio: int -> nat, tick: int, baseUnit: nat, baseIsToken0: bool, price: Price)
    requires price == QuoteOrFail(sqrtRatio, tick, baseUnit, baseIsToken0) && price.Priced?
    ensures TickPrice(sqrtRatio, tick, baseUnit, baseIsToken0) == (price.price, price.tick)
  {
  }

  // ---- several pools ------------------------------------------------------------------

  function WindowTicks(turned: seq<bool>, tapes: seq<Tape>, instant: nat, window: nat): (ticks: seq<int>)
    requires |tapes| == |turned| && forall i | 0 <= i < |tapes| :: OnRecord(tapes[i], instant, window)
    ensures |ticks| == |tapes|
    ensures forall i | 0 <= i < |tapes| :: ticks[i] == WindowTick(tapes[i], turned[i], instant, window)
  {
    seq(|tapes|, i requires 0 <= i < |tapes| => WindowTick(tapes[i], turned[i], instant, window))
  }

  /** The price of the median of the pools' floored average ticks, each turned to the base's side. */
  function CompositeReading(turned: seq<bool>, baseUnit: nat, sqrtRatio: int -> nat, tapes: seq<Tape>,
                            instant: nat, window: nat): (nat, int)
    requires |tapes| == |turned| > 0
  {
    if forall i | 0 <= i < |tapes| :: OnRecord(tapes[i], instant, window)
    then TickPrice(sqrtRatio, MedianOf(WindowTicks(turned, tapes, instant, window)), baseUnit, true)
    else (0, 0)
  }

  ghost predicate AllOnTape(chains: seq<Chain>, tapes: seq<Tape>) {
    |chains| == |tapes| && forall i | 0 <= i < |chains| :: OnTape(chains[i], tapes[i])
  }

  lemma SourceOnTape(s: Source, c: Chain, tape: Tape, now: nat, instant: nat, window: nat)
    requires BackedAt(s, c, now) && OnTape(c, tape) && Sound(s.pool, now) && 0 < window <= instant <= now
    requires SourceTick(s, now, instant, window).Tick?
    ensures OnRecord(tape, instant, window)
    ensures SourceTick(s, now, instant, window).tick == WindowTick(tape, s.baseIsToken0, instant, window)
  {
    hide SourceTick, FlooredAverage, Exact;
    SourceSays(s, c, now, instant, window);
    TapeAverage(c, tape, instant - window - c.genesis, instant - c.genesis);
  }

  ghost predicate Turned(o: Composite, turned: seq<bool>) {
    |turned| == |o.sources| && forall i | 0 <= i < |turned| :: o.sources[i].baseIsToken0 == turned[i]
  }

  lemma TicksOnTape(o: Composite, turned: seq<bool>, chains: seq<Chain>, tapes: seq<Tape>, now: nat,
                    instant: nat, window: nat, ticks: seq<int>)
    requires Turned(o, turned) && Backed(o, chains, now) && SoundSources(o, now) && AllOnTape(chains, tapes)
    requires 0 < window <= instant <= now && Gather(Readings(o, now, instant, window)) == Ticks(ticks)
    ensures forall i | 0 <= i < |tapes| :: OnRecord(tapes[i], instant, window)
    ensures ticks == WindowTicks(turned, tapes, instant, window)
  {
    hide SourceTick, FlooredAverage;
    var readings := Readings(o, now, instant, window);
    GatherCounts(readings);
    forall i | 0 <= i < |tapes|
      ensures OnRecord(tapes[i], instant, window)
      ensures ticks[i] == WindowTick(tapes[i], turned[i], instant, window)
    {
      assert BackedAt(o.sources[i], chains[i], now) && readings[i] == Tick(ticks[i]);
      SourceOnTape(o.sources[i], chains[i], tapes[i], now, instant, window);
    }
  }

  lemma CompositeFeedAnswers(o: Composite, turned: seq<bool>, chains: seq<Chain>, tapes: seq<Tape>, now: nat,
                             instant: nat, window: nat)
    requires |o.sources| > 0 && Turned(o, turned)
    requires Backed(o, chains, now) && SoundSources(o, now) && AllOnTape(chains, tapes)
    ensures Pricing.Answers(AsQuote(PriceAtSpec(o, now, instant, window)),
                            CompositeReading(turned, o.baseUnit, o.sqrtRatio, tapes, instant, window))
  {
    hide SourceTick, MedianOf, QuoteAtTick, WindowTicks, Exact, WellFormed;
    if PriceAtSpec(o, now, instant, window).Priced? {
      var readings := Readings(o, now, instant, window);
      GatherCounts(readings);
      TicksOnTape(o, turned, chains, tapes, now, instant, window, Gather(readings).ticks);
      JudgedReading(o, turned, tapes, instant, window, readings);
    }
  }

  lemma JudgedReading(o: Composite, turned: seq<bool>, tapes: seq<Tape>, instant: nat, window: nat,
                      readings: seq<Reading>)
    requires |tapes| == |turned| == |readings| > 0 && Judge(o, readings).Priced?
    requires forall i | 0 <= i < |tapes| :: OnRecord(tapes[i], instant, window)
    requires Gather(readings) == Ticks(WindowTicks(turned, tapes, instant, window))
    ensures CompositeReading(turned, o.baseUnit, o.sqrtRatio, tapes, instant, window)
         == (Judge(o, readings).price, Judge(o, readings).tick)
  {
    hide WindowTicks, MedianOf, QuoteOrFail, TickPrice;
    JudgedPasses(o, readings);
    var ticks := WindowTicks(turned, tapes, instant, window);
    var median := MedianOf(ticks);
    JudgeOfTicks(o, readings, ticks, median);
    QuotedIsTickPrice(o.sqrtRatio, median, o.baseUnit, true, Judge(o, readings));
  }

  // ---- the market ---------------------------------------------------------------------

  /** An oracle address is a single-pool adapter or a composite over some of the pools. */
  datatype Feed =
    | Single(adapter: Adapter, pool: nat)
    | Several(picks: seq<nat>, turned: seq<bool>, baseUnit: nat, defaultTwapWindow: nat, maxDivergenceBps: nat,
              sqrtRatio: int -> nat)

  ghost predicate ValidFeed(feed: Feed, pools: nat) {
    match feed
    case Single(adapter, pool) => ValidAdapter(adapter) && pool < pools
    case Several(picks, turned, baseUnit, defaultTwapWindow, maxDivergenceBps, sqrtRatio) =>
      && 1 <= |picks| == |turned| <= MAX_SOURCES && (forall i | 0 <= i < |picks| :: picks[i] < pools)
      && TickTable(sqrtRatio) && 0 < baseUnit < TWO_128
      && 0 < defaultTwapWindow <= 604_800 && maxDivergenceBps > 0
  }

  function Pick<T>(all: seq<T>, picks: seq<nat>): (picked: seq<T>)
    requires forall i | 0 <= i < |picks| :: picks[i] < |all|
    ensures |picked| == |picks| && forall i | 0 <= i < |picks| :: picked[i] == all[picks[i]]
  {
    seq(|picks|, i requires 0 <= i < |picks| => all[picks[i]])
  }

  function Over(feed: Feed, chains: seq<Chain>): (o: Composite)
    requires feed.Several? && |chains| == |feed.turned|
    ensures |o.sources| == |chains|
    ensures forall i | 0 <= i < |chains| :: o.sources[i] == Source(chains[i].pool, feed.turned[i])
  {
    Composite(seq(|chains|, i requires 0 <= i < |chains| => Source(chains[i].pool, feed.turned[i])),
              feed.baseUnit, feed.defaultTwapWindow, feed.maxDivergenceBps, feed.sqrtRatio)
  }

  /** All pools are somewhere on their tapes, seen at the same moment. */
  ghost predicate Present(chains: seq<Chain>, tapes: seq<Tape>, now: nat) {
    AllOnTape(chains, tapes) && forall i | 0 <= i < |chains| :: chains[i].Now() == now
  }

  lemma PresentIsSound(chains: seq<Chain>, tapes: seq<Tape>, now: nat)
    requires Present(chains, tapes, now)
    ensures forall i | 0 <= i < |chains| :: Sound(chains[i].pool, now)
  {
    forall i | 0 <= i < |chains|
      ensures Sound(chains[i].pool, now)
    {
      assert OnTape(chains[i], tapes[i]);
      SummaryIsSound(chains[i]);
    }
  }

  ghost function FeedPrice(feed: Feed, chains: seq<Chain>, now: nat, instant: nat, window: nat): Price
    requires ValidFeed(feed, |chains|) && forall i | 0 <= i < |chains| :: Sound(chains[i].pool, now)
  {
    match feed
    case Single(adapter, pool) => UniswapV3PonsOracle.PriceAt(adapter, chains[pool].pool, now, instant, window)
    case Several(picks, _, _, _, _, _) => PriceAtSpec(Over(feed, Pick(chains, picks)), now, instant, window)
  }

  ghost predicate FeedProbe(feed: Feed, chains: seq<Chain>, now: nat, instant: nat, window: nat)
    requires ValidFeed(feed, |chains|) && forall i | 0 <= i < |chains| :: Sound(chains[i].pool, now)
  {
    match feed
    case Single(_, pool) =>
      assert Sound(chains[pool].pool, now);
      UniswapV3PonsOracle.CanQuote(chains[pool].pool, now, instant, window)
    case Several(picks, _, _, _, _, _) => CanQuoteSpec(Over(feed, Pick(chains, picks)), now, instant, window)
  }

  ghost function FeedReading(feed: Feed, tapes: seq<Tape>, instant: nat, window: nat): (nat, int)
    requires ValidFeed(feed, |tapes|)
  {
    match feed
    case Single(adapter, pool) => SingleReading(adapter, tapes[pool], instant, window)
    case Several(picks, turned, baseUnit, _, _, sqrtRatio) =>
      CompositeReading(turned, baseUnit, sqrtRatio, Pick(tapes, picks), instant, window)
  }

  /** Whenever a feed answers, it answers with the price its pools' tapes fix. */
  lemma FeedAnswers(feed: Feed, chains: seq<Chain>, tapes: seq<Tape>, now: nat, instant: nat, window: nat)
    requires Present(chains, tapes, now) && ValidFeed(feed, |tapes|)
    requires forall i | 0 <= i < |chains| :: Sound(chains[i].pool, now)
    ensures Pricing.Answers(AsQuote(FeedPrice(feed, chains, now, instant, window)),
                            FeedReading(feed, tapes, instant, window))
  {
    match feed
    case Single(adapter, pool) =>
      assert OnTape(chains[pool], tapes[pool]);
      SingleFeedAnswers(adapter, chains[pool], tapes[pool], instant, window);
    case Several(picks, turned, _, _, _, _) =>
      var some := Pick(chains, picks);
      forall i | 0 <= i < |picks|
        ensures OnTape(some[i], Pick(tapes, picks)[i]) && some[i].Now() == now
      {
        assert OnTape(chains[picks[i]], tapes[picks[i]]);
      }
      CompositeFeedAnswers(Over(feed, some), turned, some, Pick(tapes, picks), now, instant, window);
  }

  ghost predicate ValidFeeds(feeds: M.Address -> Feed, pools: nat) {
    forall a :: ValidFeed(feeds(a), pools)
  }

  /** A world whose oracles are these feeds over these pools at some point of their tapes. */
  ghost predicate Sees(w: M.World, feeds: M.Address -> Feed, tapes: seq<Tape>) {
    ValidFeeds(feeds, |tapes|) && exists chains :: SeesPools(w, feeds, tapes, chains)
  }

  ghost predicate SeesPools(w: M.World, feeds: M.Address -> Feed, tapes: seq<Tape>, chains: seq<Chain>)
    requires ValidFeeds(feeds, |tapes|)
  {
    && Present(chains, tapes, w.now)
    && (PresentIsSound(chains, tapes, w.now);
        forall a, i, k ::
          && w.quote(a, i, k) == AsQuote(FeedPrice(feeds(a), chains, w.now, i, k))
          && w.probe(a, i, k) == AsProbe(FeedProbe(feeds(a), chains, w.now, i, k)))
  }

  ghost function MarketReading(feeds: M.Address -> Feed, tapes: seq<Tape>): Pricing.Reading
    requires ValidFeeds(feeds, |tapes|)
  {
    (a: M.Address, i: nat, k: nat) => FeedReading(feeds(a), tapes, i, k)
  }

  /** The assumption the market's results rest on, discharged: oracles over real pools are honest. */
  lemma FeedsAreHonest(w: M.World, feeds: M.Address -> Feed, tapes: seq<Tape>)
    requires Sees(w, feeds, tapes)
    ensures Pricing.Honest(w, MarketReading(feeds, tapes))
  {
    var chains :| SeesPools(w, feeds, tapes, chains);
    PresentIsSound(chains, tapes, w.now);
    forall a, i, k
      ensures Pricing.Answers(w.quote(a, i, k), MarketReading(feeds, tapes)(a, i, k))
    {
      FeedAnswers(feeds(a), chains, tapes, w.now, i, k);
    }
  }

  lemma AllSeenHonest(txs: seq<M.Tx>, feeds: M.Address -> Feed, tapes: seq<Tape>)
    requires ValidFeeds(feeds, |tapes|) && History.AllSeen(txs, w => Sees(w, feeds, tapes))
    ensures History.AllSeen(txs, w => Pricing.Honest(w, MarketReading(feeds, tapes)))
  {
    forall w | Sees(w, feeds, tapes)
      ensures Pricing.Honest(w, MarketReading(feeds, tapes))
    {
      FeedsAreHonest(w, feeds, tapes);
    }
    forall i | 0 <= i < |txs|
      ensures History.EveryWorld(txs[i], w => Pricing.Honest(w, MarketReading(feeds, tapes)))
    {
      assert History.EveryWorld(txs[i], w => Sees(w, feeds, tapes));
    }
  }

  /** End to end: after every run of calls by anyone, at any times, nested in any way, a settled round's
      prices, outcome and shares are those of its pools of stakes, its pinned terms and the end-of-second
      ticks of the Uniswap pools, and were so already when its entries closed. */
  lemma PoolsDecideRounds(s: M.State, now: nat, txs: seq<M.Tx>, x: M.State, epoch: nat,
                          feeds: M.Address -> Feed, tapes: seq<Tape>)
    requires Inv.Inv(s, now) && Spec.Chronological(now, txs) && ValidFeeds(feeds, |tapes|)
    requires Pricing.Priced(s, MarketReading(feeds, tapes))
    requires x == Spec.Run(s, txs) && History.AllSeen(txs, w => Sees(w, feeds, tapes))
    requires x.RoundOf(epoch).status.Settled?
    ensures Pricing.Recorded(x.RoundOf(epoch), x.TermsOf(epoch))
         == Pricing.Foretold(x.RoundOf(epoch), x.TermsOf(epoch), MarketReading(feeds, tapes))
    ensures 1 <= epoch <= s.currentEpoch && now >= s.RoundOf(epoch).lockTimestamp ==>
      Pricing.Recorded(x.RoundOf(epoch), x.TermsOf(epoch))
      == Pricing.Foretold(s.RoundOf(epoch), s.TermsOf(epoch), MarketReading(feeds, tapes))
  {
    hide Pricing.Recorded, Pricing.Foretold, Pricing.Honest, Sees, Pricing.Priced;
    AllSeenHonest(txs, feeds, tapes);
    Pricing.RunSettlesAsForetold(s, now, txs, x, epoch, MarketReading(feeds, tapes));
    if 1 <= epoch <= s.currentEpoch && now >= s.RoundOf(epoch).lockTimestamp {
      Pricing.ResultIsFixedOnceEntriesClose(s, now, txs, x, epoch, MarketReading(feeds, tapes));
    }
  }

  // ---- stuck rounds over pools --------------------------------------------------------

  /** The window lies within the history of every pool the feed reads. */
  predicate FeedOnRecord(feed: Feed, tapes: seq<Tape>, instant: nat, window: nat)
    requires match feed case Single(_, pool) => pool < |tapes|
             case Several(picks, _, _, _, _, _) => forall i | 0 <= i < |picks| :: picks[i] < |tapes|
  {
    match feed
    case Single(_, pool) => OnRecord(tapes[pool], instant, window)
    case Several(picks, _, _, _, _, _) => forall i | 0 <= i < |picks| :: OnRecord(tapes[picks[i]], instant, window)
  }

  /** The floored average tick of the window, or the median of those, has a price of zero. */
  ghost predicate QuotesToZero(feed: Feed, tapes: seq<Tape>, instant: nat, window: nat)
    requires ValidFeed(feed, |tapes|)
  {
    FeedOnRecord(feed, tapes, instant, window) && FeedReading(feed, tapes, instant, window).0 == 0
  }

  lemma SingleProbe(o: Adapter, c: Chain, tape: Tape, instant: nat, window: nat)
    requires ValidAdapter(o) && OnTape(c, tape) && Sound(c.pool, c.Now())
    requires UniswapV3PonsOracle.CanQuote(c.pool, c.Now(), instant, window)
    ensures OnRecord(tape, instant, window)
    ensures UniswapV3PonsOracle.PriceAt(o, c.pool, c.Now(), instant, window)
         == QuoteOrFail(o.sqrtRatio, WindowTick(tape, true, instant, window), o.baseUnit, o.baseIsToken0)
  {
    hide FlooredAverage, QuoteOrFail, Exact, UniswapV3PonsOracle.PriceAt;
    QuotableAnswer(o, c, instant, window);
    TapeAverage(c, tape, instant - window - c.genesis, instant - c.genesis);
  }

  lemma SeveralProbe(o: Composite, turned: seq<bool>, chains: seq<Chain>, tapes: seq<Tape>, now: nat,
                     instant: nat, window: nat)
    requires |o.sources| > 0 && Turned(o, turned)
    requires Backed(o, chains, now) && SoundSources(o, now) && AllOnTape(chains, tapes)
    requires CanQuoteSpec(o, now, instant, window)
    ensures forall i | 0 <= i < |tapes| :: OnRecord(tapes[i], instant, window)
    ensures PriceAtSpec(o, now, instant, window)
         == QuoteOrFail(o.sqrtRatio, MedianOf(WindowTicks(turned, tapes, instant, window)), o.baseUnit, true)
  {
    hide SourceTick, MedianOf, QuoteOrFail, WindowTicks, Exact, WellFormed;
    var readings := Readings(o, now, instant, window);
    GatherCounts(readings);
    var ticks := Gather(readings).ticks;
    TicksOnTape(o, turned, chains, tapes, now, instant, window, ticks);
    JudgeOfTicks(o, readings, ticks, MedianOf(ticks));
  }

  lemma QuoteOrZero(sqrtRatio: int -> nat, tick: int, baseUnit: nat, baseIsToken0: bool)
    ensures QuoteOrFail(sqrtRatio, tick, baseUnit, baseIsToken0).Failed?
            <==> TickPrice(sqrtRatio, tick, baseUnit, baseIsToken0).0 == 0
    ensures QuoteOrFail(sqrtRatio, tick, baseUnit, baseIsToken0).Priced? ==>
      QuoteOrFail(sqrtRatio, tick, baseUnit, baseIsToken0).price > 0
  {
    hide QuoteAtTick;
  }

  /** A feed answers whenever its probe says yes, unless the window's tick quotes to zero. */
  lemma FeedAgreement(feed: Feed, chains: seq<Chain>, tapes: seq<Tape>, now: nat, instant: nat, window: nat)
    requires Present(chains, tapes, now) && ValidFeed(feed, |tapes|)
    requires forall i | 0 <= i < |chains| :: Sound(chains[i].pool, now)
    requires FeedProbe(feed, chains, now, instant, window)
    ensures FeedOnRecord(feed, tapes, instant, window)
    ensures FeedPrice(feed, chains, now, instant, window).Failed? <==> QuotesToZero(feed, tapes, instant, window)
    ensures FeedPrice(feed, chains, now, instant, window).Priced? ==>
      FeedPrice(feed, chains, now, instant, window).price > 0
  {
    hide TickPrice, QuoteOrFail, MedianOf, WindowTicks, OnRecord, CanQuoteSpec, UniswapV3PonsOracle.CanQuote;
    match feed
    case Single(adapter, pool) =>
      assert OnTape(chains[pool], tapes[pool]);
      SingleProbe(adapter, chains[pool], tapes[pool], instant, window);
      QuoteOrZero(adapter.sqrtRatio, WindowTick(tapes[pool], true, instant, window), adapter.baseUnit,
                  adapter.baseIsToken0);
    case Several(picks, turned, baseUnit, _, _, sqrtRatio) =>
      var some, their := Pick(chains, picks), Pick(tapes, picks);
      forall i | 0 <= i < |picks|
        ensures OnTape(some[i], their[i]) && some[i].Now() == now
      {
        assert OnTape(chains[picks[i]], tapes[picks[i]]);
      }
      SeveralProbe(Over(feed, some), turned, some, their, now, instant, window);
      QuoteOrZero(sqrtRatio, MedianOf(WindowTicks(turned, their, instant, window)), baseUnit, true);
  }

  /** Over pools, a probe promises a price that is not delivered exactly when the window quotes to zero. */
  lemma PoolsJamExactly(w: M.World, feeds: M.Address -> Feed, tapes: seq<Tape>, t: M.Terms, instant: nat)
    requires Sees(w, feeds, tapes)
    ensures Liveness.JamsAt(w, t, instant) <==>
      Spec.ProbeOf(w, t, instant) && QuotesToZero(feeds(t.oracle), tapes, instant, t.twapWindow)
  {
    hide QuotesToZero, FeedPrice, FeedProbe;
    var chains :| SeesPools(w, feeds, tapes, chains);
    PresentIsSound(chains, tapes, w.now);
    if Spec.ProbeOf(w, t, instant) {
      FeedAgreement(feeds(t.oracle), chains, tapes, w.now, instant, t.twapWindow);
    }
  }

  /** Over pools, past its due instant plus the tolerance, an unresolved round can be moved on by anyone
      unless its oracle remembers the due window and the window's tick quotes to zero. */
  lemma PoolsMoveRounds(s: M.State, w: M.World, sender: M.Address, epoch: nat, feeds: M.Address -> Feed,
                        tapes: seq<Tape>)
    requires Inv.Inv(s, w.now) && 1 <= epoch <= s.currentEpoch && Spec.Unresolved(s.RoundOf(epoch))
    requires w.now > Spec.DueInstant(s.RoundOf(epoch)) + s.bufferSeconds && Sees(w, feeds, tapes)
    ensures var t, due := s.TermsOf(epoch), Spec.DueInstant(s.RoundOf(epoch));
      Liveness.SomeoneMoves(s, w, sender, epoch) <==>
        !(Spec.ProbeOf(w, t, due) && QuotesToZero(feeds(t.oracle), tapes, due, t.twapWindow))
  {
    hide QuotesToZero;
    Liveness.MovesUnlessJammed(s, w, sender, epoch);
    PoolsJamExactly(w, feeds, tapes, s.TermsOf(epoch), Spec.DueInstant(s.RoundOf(epoch)));
  }

  /** No window an unresolved round still needs quotes to zero. */
  ghost predicate NoZeroWindow(s: M.State, feeds: M.Address -> Feed, tapes: seq<Tape>)
    requires ValidFeeds(feeds, |tapes|)
  {
    forall e | 1 <= e <= s.currentEpoch ::
      var r, t := s.RoundOf(e), s.TermsOf(e);
      && (r.status.Open? ==> !QuotesToZero(feeds(t.oracle), tapes, r.lockTimestamp, t.twapWindow))
      && (Spec.Unresolved(r) ==> !QuotesToZero(feeds(t.oracle), tapes, r.closeTimestamp, t.twapWindow))
  }

  lemma NoZeroIsClear(s: M.State, w: M.World, feeds: M.Address -> Feed, tapes: seq<Tape>)
    requires Sees(w, feeds, tapes) && NoZeroWindow(s, feeds, tapes)
    ensures Liveness.AllClear(s, w)
  {
    hide QuotesToZero, Liveness.JamsAt;
    forall e | 1 <= e <= s.currentEpoch
      ensures Liveness.Clear(w, s.RoundOf(e), s.TermsOf(e))
    {
      PoolsJamExactly(w, feeds, tapes, s.TermsOf(e), s.RoundOf(e).lockTimestamp);
      PoolsJamExactly(w, feeds, tapes, s.TermsOf(e), s.RoundOf(e).closeTimestamp);
    }
  }

  /** Over pools nothing is stuck: unless a window still needed quotes to zero, some finite sequence of
      calls by anyone, past the head's close and tolerance, resolves every round. */
  lemma PoolsResolveEveryRound(s: M.State, now: nat, worlds: nat -> M.World, sender: M.Address,
                               feeds: M.Address -> Feed, tapes: seq<Tape>) returns (calls: seq<M.Tx>)
    requires Inv.Inv(s, now) && now <= worlds(0).now && forall i: nat :: worlds(i).now <= worlds(i + 1).now
    requires (forall i: nat :: Sees(worlds(i), feeds, tapes)) && ValidFeeds(feeds, |tapes|)
    requires NoZeroWindow(s, feeds, tapes)
    requires s.currentEpoch > 0 ==> worlds(0).now > s.RoundOf(s.currentEpoch).closeTimestamp + s.bufferSeconds
    ensures Liveness.AnyonesCalls(calls, worlds, 0) && Liveness.Resolved(Spec.Run(s, calls))
  {
    forall i: nat
      ensures worlds(i).now <= worlds(i + 1).now && Liveness.AllClear(s, worlds(i))
    {
      NoZeroIsClear(s, worlds(i), feeds, tapes);
    }
    calls := Liveness.EveryRoundResolves(s, now, worlds, 0, sender);
  }

  // ---- a pool that jams ---------------------------------------------------------------

  /** A pool created at 900 on the lowest tick, grown, and swapped at 1100. */
  function LowPool(): seq<Event> { [GrowTo(8), Elapse(200), SwapTo(0)] }

  lemma GrownPool(c0: Chain) returns (c1: Chain)
    requires c0 == Created(900, MIN_TICK) && Summarises(c0)
    ensures Sound(c0.pool, c0.Now()) && c1 == PoolHistory.Step(c0, GrowTo(8)) && Summarises(c1)
    ensures c1.pool.index == 0 && c1.pool.cardinality == 1 && c1.pool.cardinalityNext == 8
    ensures c1.pool.observations[0] == Observation(900, 0, true) && !c1.pool.observations[1].initialized
    ensures c1.pool.tick == MIN_TICK && c1.genesis == 900 && c1.ends == []
  {
    SummaryIsSound(c0);
    c1 := PoolHistory.Step(c0, GrowTo(8));
    StepKeepsSummary(c0, GrowTo(8));
  }

  lemma LowPoolRuns() returns (c: Chain)
    ensures Summarises(Created(900, MIN_TICK)) && c == PoolHistory.Run(Created(900, MIN_TICK), LowPool())
    ensures Summarises(c) && c.genesis == 900 && c.ends == seq(200, _ => MIN_TICK)
    ensures NewestTimestamp(c.pool) == 1100 && EarliestTimestamp(c.pool) == 900
  {
    var c0 := Created(900, MIN_TICK);
    CreatedSummarises(900, MIN_TICK);
    var c1 := GrownPool(c0);
    SummaryIsSound(c1);
    var c2 := PoolHistory.Step(c1, Elapse(200));
    StepKeepsSummary(c1, Elapse(200));
    SummaryIsSound(c2);
    var c3 := PoolHistory.Step(c2, SwapTo(0));
    StepKeepsSummary(c2, SwapTo(0));
    c := c3;
    assert LowPool()[1..] == [Elapse(200), SwapTo(0)];
    assert [Elapse(200), SwapTo(0)][1..] == [SwapTo(0)] && [SwapTo(0)][1..] == [];
  }

  lemma LowestTickIsFree(o: Adapter)
    requires ValidAdapter(o) && o.baseIsToken0 && o.sqrtRatio(MIN_TICK) == MIN_SQRT_RATIO
    requires o.baseUnit <= 1_000_000_000_000_000_000
    ensures QuoteOrFail(o.sqrtRatio, MIN_TICK, o.baseUnit, true) == Failed(QuoteIsZero)
  {
    var sq := MIN_SQRT_RATIO * MIN_SQRT_RATIO;
    LowSquare(MIN_SQRT_RATIO);
    MulMono(o.baseUnit, 1_000_000_000_000_000_000, sq);
    DivUnique(sq * o.baseUnit, TWO_192, 0);
  }

  lemma LowAverage(ends: seq<int>)
    requires ends == seq(200, _ => MIN_TICK)
    ensures FlooredAverage(ends, 100, 160) == MIN_TICK
  {
    IntegralOfSteady(ends, 100, 160, MIN_TICK);
  }

  /** Such a pool is asked for the minute before 1060: the probe says yes, the price is zero. */
  lemma LowPoolJams(o: Adapter) returns (c: Chain)
    requires ValidAdapter(o) && o.baseIsToken0 && o.sqrtRatio(MIN_TICK) == MIN_SQRT_RATIO
    requires o.baseUnit <= 1_000_000_000_000_000_000
    ensures Summarises(Created(900, MIN_TICK)) && c == PoolHistory.Run(Created(900, MIN_TICK), LowPool())
    ensures Summarises(c) && Sound(c.pool, c.Now()) && UniswapV3PonsOracle.CanQuote(c.pool, c.Now(), 1060, 60)
    ensures UniswapV3PonsOracle.PriceAt(o, c.pool, c.Now(), 1060, 60) == Failed(QuoteIsZero) && c.Now() == 1100
  {
    hide UniswapV3PonsOracle.PriceAt, QuoteOrFail, FlooredAverage, PoolHistory.Run, Exact, Live, EarliestTimestamp,
      NewestTimestamp;
    c := LowPoolRuns();
    SummaryIsSound(c);
    QuotableAnswer(o, c, 1060, 60);
    LowAverage(c.ends);
    LowestTickIsFree(o);
  }

  /** What oracles over these pools answer at one moment. */
  ghost function WorldOver(feeds: M.Address -> Feed, chains: seq<Chain>, now: nat): M.World
    requires ValidFeeds(feeds, |chains|) && forall i | 0 <= i < |chains| :: Sound(chains[i].pool, now)
  {
    M.World(now, (a: M.Address, i: nat, k: nat) => AsQuote(FeedPrice(feeds(a), chains, now, i, k)),
            (a: M.Address, i: nat, k: nat) => AsProbe(FeedProbe(feeds(a), chains, now, i, k)),
            (a: M.Address) => M.Version(1))
  }

  /** The worlds in which round 1 of the entered market stays jammed. */
  ghost predicate SeesZero(w: M.World, feeds: M.Address -> Feed, tapes: seq<Tape>) {
    Sees(w, feeds, tapes) && w.now >= 1060 && w.probe(3, 1060, 60).Yes?
  }

  /** There is such a world: an adapter over the low pool, with the pool's own history as its tape. */
  lemma ZeroIsSeen(o: Adapter) returns (w: M.World, feeds: M.Address -> Feed, tapes: seq<Tape>)
    requires ValidAdapter(o) && o.baseIsToken0 && o.sqrtRatio(MIN_TICK) == MIN_SQRT_RATIO
    requires o.baseUnit <= 1_000_000_000_000_000_000
    ensures ValidFeeds(feeds, |tapes|) && QuotesToZero(feeds(3), tapes, 1060, 60) && SeesZero(w, feeds, tapes)
  {
    hide UniswapV3PonsOracle.PriceAt, UniswapV3PonsOracle.CanQuote, Summarises, FeedReading, FeedOnRecord;
    var c := LowPoolJams(o);
    var chains := [c];
    feeds, tapes := (a: M.Address) => Single(o, 0), [Tape(c.genesis, c.ends)];
    w := WorldOver(feeds, chains, c.Now());
    assert OnTape(chains[0], tapes[0]);
    assert SeesPools(w, feeds, tapes, chains);
    FeedAgreement(feeds(3), chains, tapes, w.now, 1060, 60);
  }

  /** Over pools, money is stuck: while the oracle of the entered round remembers a minute before its lock
      whose tick quotes to zero, no run of calls by anyone moves the round or releases its stake. */
  lemma PoolsCanStickMoney(txs: seq<M.Tx>, feeds: M.Address -> Feed, tapes: seq<Tape>)
    requires ValidFeeds(feeds, |tapes|) && QuotesToZero(feeds(3), tapes, 1060, 60)
    requires Spec.Chronological(1060, txs) && History.AllSeen(txs, w => SeesZero(w, feeds, tapes))
    ensures Spec.Construct(Liveness.SHORT).Ok?
    ensures var x := Spec.Run(Spec.Construct(Liveness.SHORT).state, Liveness.EnteredRound() + txs);
      && x.RoundOf(1) == Liveness.STAKED && x.totalLiabilities >= 10
      && Spec.Entitlement(x, 1, 7) == Util.Some(Spec.Entitled(false, 0))
  {
    hide QuotesToZero, Sees, Spec.Run;
    forall w | SeesZero(w, feeds, tapes)
      ensures Liveness.Jammed(w, Liveness.STAKED, Liveness.PINNED)
    {
      PoolsJamExactly(w, feeds, tapes, Liveness.PINNED, 1060);
    }
    forall i | 0 <= i < |txs|
      ensures History.EveryWorld(txs[i], w => Liveness.Jammed(w, Liveness.STAKED, Liveness.PINNED))
    {
      assert History.EveryWorld(txs[i], w => SeesZero(w, feeds, tapes));
    }
    History.WidenStart(1001, 1060, txs);
    Liveness.MoneyCanBeStuck(txs);
  }

  // ---- a remembered price is never voided ---------------------------------------------

  /** The request is one the oracles take, and every pool the feed reads has sealed and remembers it. */
  ghost predicate FeedHolds(feed: Feed, chains: seq<Chain>, now: nat, instant: nat, window: nat)
    requires ValidFeed(feed, |chains|) && forall i | 0 <= i < |chains| :: Sound(chains[i].pool, now)
  {
    && 0 < window <= 604_800 && window <= instant <= now
    && match feed
       case Single(_, pool) =>
         assert Sound(chains[pool].pool, now);
         Available(Source(chains[pool].pool, true), now, instant, window)
       case Several(picks, turned, _, _, _, _) =>
         forall i | 0 <= i < |picks| ::
           assert Sound(chains[picks[i]].pool, now);
           Available(Source(chains[picks[i]].pool, turned[i]), now, instant, window)
  }

  /** The average ticks of the window, turned to the base token's side, are pairwise within the gate. */
  ghost predicate TapesAgree(feed: Feed, tapes: seq<Tape>, instant: nat, window: nat)
    requires ValidFeed(feed, |tapes|)
  {
    && FeedOnRecord(feed, tapes, instant, window)
    && match feed
       case Single(_, _) => true
       case Several(picks, turned, _, _, gate, _) =>
         forall i, j | 0 <= i < |picks| && 0 <= j < |picks| ::
           WindowTick(tapes[picks[i]], turned[i], instant, window)
           <= WindowTick(tapes[picks[j]], turned[j], instant, window) + gate
  }

  lemma HeldReading(o: Composite, turned: seq<bool>, chains: seq<Chain>, tapes: seq<Tape>, now: nat,
                    instant: nat, window: nat, i: nat)
    requires Turned(o, turned) && Backed(o, chains, now) && SoundSources(o, now) && AllOnTape(chains, tapes)
    requires 0 < window <= instant <= now && i < |chains| && Available(o.sources[i], now, instant, window)
    ensures OnRecord(tapes[i], instant, window)
    ensures SourceTick(o.sources[i], now, instant, window) == Tick(WindowTick(tapes[i], turned[i], instant, window))
  {
    hide SourceTick, FlooredAverage, Exact, NormalTick;
    assert BackedAt(o.sources[i], chains[i], now) && OnTape(chains[i], tapes[i]);
    SourceSays(o.sources[i], chains[i], now, instant, window);
    SourceOnTape(o.sources[i], chains[i], tapes[i], now, instant, window);
  }

  /** A composite's probe says yes exactly when every source holds the window and the tapes agree on it. */
  lemma CompositeProbeExactly(o: Composite, turned: seq<bool>, chains: seq<Chain>, tapes: seq<Tape>, now: nat,
                              instant: nat, window: nat)
    requires ValidComposite(o) && Turned(o, turned)
    requires Backed(o, chains, now) && SoundSources(o, now) && AllOnTape(chains, tapes)
    requires 0 < window <= 604_800 && window <= instant <= now
    requires forall i | 0 <= i < |chains| :: Available(o.sources[i], now, instant, window)
    ensures forall i | 0 <= i < |tapes| :: OnRecord(tapes[i], instant, window)
    ensures CanQuoteSpec(o, now, instant, window) <==>
      forall i, j | 0 <= i < |tapes| && 0 <= j < |tapes| ::
        WindowTick(tapes[i], turned[i], instant, window)
        <= WindowTick(tapes[j], turned[j], instant, window) + o.maxDivergenceBps
  {
    hide SourceTick, WindowTick, CanQuoteSpec, OnRecord, Available;
    ProbeIsExact(o, chains, now, instant, window);
    var readings := Readings(o, now, instant, window);
    forall i | 0 <= i < |tapes|
      ensures OnRecord(tapes[i], instant, window)
      ensures readings[i] == Tick(WindowTick(tapes[i], turned[i], instant, window))
    {
      HeldReading(o, turned, chains, tapes, now, instant, window, i);
    }
  }

  lemma FeedProbeHolds(feed: Feed, chains: seq<Chain>, tapes: seq<Tape>, now: nat, instant: nat, window: nat)
    requires Present(chains, tapes, now) && ValidFeed(feed, |tapes|)
    requires forall i | 0 <= i < |chains| :: Sound(chains[i].pool, now)
    requires FeedHolds(feed, chains, now, instant, window) && TapesAgree(feed, tapes, instant, window)
    ensures FeedProbe(feed, chains, now, instant, window)
  {
    hide WindowTick, Available, CanQuoteSpec, FeedOnRecord, OnRecord;
    match feed
    case Single(_, pool) => AvailableIsQuotable(chains[pool].pool, now, instant, window);
    case Several(picks, turned, _, _, _, _) =>
      var some, their := Pick(chains, picks), Pick(tapes, picks);
      var o := Over(feed, some);
      forall i | 0 <= i < |picks|
        ensures OnTape(some[i], their[i]) && some[i].Now() == now && Sound(o.sources[i].pool, now)
        ensures Available(o.sources[i], now, instant, window)
      {
        assert OnTape(chains[picks[i]], tapes[picks[i]]) && Sound(chains[picks[i]].pool, now);
      }
      CompositeProbeExactly(o, turned, some, their, now, instant, window);
      AgreeOnPicks(feed, tapes, their, instant, window);
  }

  lemma AvailableIsQuotable(p: Pool, now: nat, instant: nat, window: nat)
    requires Shape(p) && 0 < window <= 604_800 && window <= instant <= now
    ensures UniswapV3PonsOracle.CanQuote(p, now, instant, window) <==> Available(Source(p, true), now, instant, window)
  {
  }

  lemma AgreeOnPicks(feed: Feed, tapes: seq<Tape>, their: seq<Tape>, instant: nat, window: nat)
    requires ValidFeed(feed, |tapes|) && feed.Several? && TapesAgree(feed, tapes, instant, window)
    requires their == Pick(tapes, feed.picks)
    ensures forall i | 0 <= i < |their| :: OnRecord(their[i], instant, window)
    ensures forall i, j | 0 <= i < |their| && 0 <= j < |their| ::
      WindowTick(their[i], feed.turned[i], instant, window)
      <= WindowTick(their[j], feed.turned[j], instant, window) + feed.maxDivergenceBps
  {
    hide WindowTick, OnRecord;
  }

  /** A world in which the pools behind one oracle hold a window. */
  ghost predicate SeesHeld(w: M.World, feeds: M.Address -> Feed, tapes: seq<Tape>, oracle: M.Address, instant: nat,
                           window: nat)
    requires ValidFeeds(feeds, |tapes|)
  {
    exists chains :: SeesPools(w, feeds, tapes, chains) && HeldBy(feeds(oracle), chains, tapes, w.now, instant, window)
  }

  ghost predicate HeldBy(feed: Feed, chains: seq<Chain>, tapes: seq<Tape>, now: nat, instant: nat, window: nat)
    requires ValidFeed(feed, |tapes|)
  {
    Present(chains, tapes, now) && (PresentIsSound(chains, tapes, now); FeedHolds(feed, chains, now, instant, window))
  }

  lemma HeldIsPromised(w: M.World, feeds: M.Address -> Feed, tapes: seq<Tape>, t: M.Terms, instant: nat)
    requires ValidFeeds(feeds, |tapes|) && SeesHeld(w, feeds, tapes, t.oracle, instant, t.twapWindow)
    requires TapesAgree(feeds(t.oracle), tapes, instant, t.twapWindow)
    ensures Spec.ProbeOf(w, t, instant)
  {
    hide FeedHolds, FeedProbe, TapesAgree;
    var chains :| SeesPools(w, feeds, tapes, chains)
                  && HeldBy(feeds(t.oracle), chains, tapes, w.now, instant, t.twapWindow);
    PresentIsSound(chains, tapes, w.now);
    FeedProbeHolds(feeds(t.oracle), chains, tapes, w.now, instant, t.twapWindow);
  }

  /** Whenever the round is due in the run, the pools behind its oracle hold the due window. */
  ghost predicate HeldWhenDue(s: M.State, calls: seq<M.Tx>, epoch: nat, feeds: M.Address -> Feed, tapes: seq<Tape>)
    requires ValidFeeds(feeds, |tapes|)
  {
    forall i | 0 <= i < |calls| ::
      var x := Spec.Run(s, calls[..i]);
      var r, t := x.RoundOf(epoch), x.TermsOf(epoch);
      Liveness.Due(r, calls[i].world.now) ==>
        && SeesHeld(calls[i].world, feeds, tapes, t.oracle, Spec.DueInstant(r), t.twapWindow)
        && TapesAgree(feeds(t.oracle), tapes, Spec.DueInstant(r), t.twapWindow)
  }

  /** Over pools: from its lock time on, a round is voided by nobody, in any run, as long as whenever it is
      due the pools behind its oracle have sealed and remember the due window and agree on it. */
  lemma PoolsKeepPricedRounds(s: M.State, now: nat, txs: seq<M.Tx>, epoch: nat, feeds: M.Address -> Feed,
                              tapes: seq<Tape>)
    requires Inv.Inv(s, now) && Spec.Chronological(now, txs) && ValidFeeds(feeds, |tapes|)
    requires 1 <= epoch <= s.currentEpoch && now >= s.RoundOf(epoch).lockTimestamp
    requires !s.RoundOf(epoch).status.Cancelled?
    requires HeldWhenDue(s, History.Calls(s, txs), epoch, feeds, tapes)
    ensures !Spec.Run(s, txs).RoundOf(epoch).status.Cancelled?
  {
    hide Spec.Run, History.Calls, SeesHeld, TapesAgree, Inv.InvWithDebt;
    var calls := History.Calls(s, txs);
    forall i | 0 <= i < |calls|
      ensures var x, w := Spec.Run(s, calls[..i]), calls[i].world;
        Liveness.Due(x.RoundOf(epoch), w.now) ==> !Spec.SaysNo(w, x.TermsOf(epoch), Spec.DueInstant(x.RoundOf(epoch)))
    {
      var x, w := Spec.Run(s, calls[..i]), calls[i].world;
      if Liveness.Due(x.RoundOf(epoch), w.now) {
        HeldIsPromised(w, feeds, tapes, x.TermsOf(epoch), Spec.DueInstant(x.RoundOf(epoch)));
      }
    }
    Liveness.PricedRoundIsNeverVoided(s, now, txs, epoch);
  }
}
