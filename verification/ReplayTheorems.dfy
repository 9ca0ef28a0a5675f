/** Whole-session properties of the replay, most of them for any requests at all. */
module ReplayTheorems {
  import opened Messages
  import opened Replay

  // ----- No token is lost or counted twice -----

  ghost predicate Conserved(t: TokenTotals) {
    t.split.cacheRead + t.split.cacheWrite + t.split.regular == t.volume.forwarded
  }

  /** The clamps at zero never discard tokens: each turn's split adds up to what was forwarded. */
  lemma {:induction false} TurnConservation(setup: Setup, requests: seq<Request>, i: nat)
    requires i < |requests|
    ensures Conserved(TokensAt(setup, requests, i))
  {
    var tokenizer := TokenizerOf(setup, requests[i].turn.model);
    if i > 0 {
      SharedTokensBounds(tokenizer, requests[i - 1].forwarded, requests[i].forwarded);
    }
    if i + 1 < |requests| {
      SharedTokensBounds(tokenizer, requests[i].forwarded, requests[i + 1].forwarded);
    }
  }

  lemma {:induction false} ConservedSum(scores: seq<TokenTotals>, k: nat)
    requires k <= |scores| && forall i :: 0 <= i < |scores| ==> Conserved(scores[i])
    ensures Conserved(TokenTotals(SumVolume(scores, k), SumSplit(scores, k)))
  {
    if k > 0 {
      ConservedSum(scores, k - 1);
      assert Conserved(scores[k - 1]);
    }
  }

  /** Reads, writes and full-price tokens of a session add up to the forwarded tokens. */
  lemma {:induction false} Conservation(setup: Setup, requests: seq<Request>)
    ensures Conserved(Summarize(setup, requests).tokens)
  {
    var scores := TokenScores(setup, requests);
    forall i | 0 <= i < |scores|
      ensures Conserved(scores[i])
    {
      TurnConservation(setup, requests, i);
    }
    ConservedSum(scores, |scores|);
  }

  // ----- What is written is read back, so caching never costs more than it saves -----

  ghost predicate SingleModel(requests: seq<Request>, model: string) {
    forall i :: 0 <= i < |requests| ==> requests[i].turn.model == model
  }

  /** The next request reads at least what this one wrote. */
  lemma {:induction false} WriteIsReadBack(setup: Setup, requests: seq<Request>, model: string, i: nat)
    requires i < |requests| && SingleModel(requests, model)
    ensures TokensAt(setup, requests, i).split.cacheWrite
         <= if i + 1 < |requests| then TokensAt(setup, requests, i + 1).split.cacheRead else 0
  {
    if i + 1 < |requests| {
      assert SentBefore(requests, i + 1) == Some(requests[i].AsSent());
      assert SentAfter(requests, i) == Some(requests[i + 1].AsSent());
      assert requests[i].turn.model == requests[i + 1].turn.model;
    }
  }

  ghost predicate ReadBack(scores: seq<TokenTotals>, i: nat)
    requires i < |scores|
  {
    scores[i].split.cacheWrite <= if i + 1 < |scores| then scores[i + 1].split.cacheRead else 0
  }

  /** Writes lag one turn behind the reads that cover them. */
  lemma {:induction false} WritesLagReads(scores: seq<TokenTotals>, k: nat)
    requires k <= |scores|
    requires forall i :: 0 <= i < |scores| ==> ReadBack(scores, i)
    ensures k < |scores| ==> SumSplit(scores, k).cacheWrite <= SumSplit(scores, k + 1).cacheRead
    ensures k == |scores| ==> SumSplit(scores, k).cacheWrite <= SumSplit(scores, k).cacheRead
  {
    if k > 0 {
      WritesLagReads(scores, k - 1);
      assert ReadBack(scores, k - 1);
    }
  }

  /** Over a session with one model no more is written to the cache than is read from it. */
  lemma {:induction false} WritesNeverExceedReads(setup: Setup, requests: seq<Request>, model: string)
    requires SingleModel(requests, model)
    ensures var t := Summarize(setup, requests).tokens.split; t.cacheWrite <= t.cacheRead
  {
    var scores := TokenScores(setup, requests);
    forall i | 0 <= i < |scores|
      ensures ReadBack(scores, i)
    {
      WriteIsReadBack(setup, requests, model, i);
    }
    WritesLagReads(scores, |scores|);
  }

  lemma CostDistributes(a: nat, b: nat, rate: real)
    ensures Cost(a + b, rate) == Cost(a, rate) + Cost(b, rate)
  {
    assert (a + b) as real == a as real + b as real;
  }

  lemma {:induction false} PriceOfSum(rates: Rates, scores: seq<TokenTotals>, costs: seq<CostTotals>, k: nat)
    requires k <= |scores| == |costs| && forall i :: 0 <= i < |scores| ==> costs[i] == Price(rates, scores[i])
    ensures SumCosts(costs, k) == Price(rates, TokenTotals(SumVolume(scores, k), SumSplit(scores, k)))
  {
    if k > 0 {
      PriceOfSum(rates, scores, costs, k - 1);
      var v, s, t := SumVolume(scores, k - 1), SumSplit(scores, k - 1), scores[k - 1];
      CostDistributes(s.regular, t.split.regular, rates.input);
      CostDistributes(s.cacheRead, t.split.cacheRead, rates.cacheRead);
      CostDistributes(s.cacheWrite, t.split.cacheWrite, rates.cacheWrite);
      CostDistributes(v.output, t.volume.output, rates.output);
    }
  }

  /** With one model the accumulated costs are the price of the accumulated tokens. */
  lemma {:induction false} CostsAreThePriceOfTheTokens(setup: Setup, requests: seq<Request>, model: string)
    requires SingleModel(requests, model)
    ensures var totals := Summarize(setup, requests);
            totals.costs == Price(ResolveModelRates(setup, model), totals.tokens)
  {
    var scores, costs := TokenScores(setup, requests), CostScores(setup, requests);
    forall i | 0 <= i < |scores|
      ensures costs[i] == Price(ResolveModelRates(setup, model), scores[i])
    {
      assert requests[i].turn.model == model;
    }
    PriceOfSum(ResolveModelRates(setup, model), scores, costs, |scores|);
  }

  ghost predicate AddsUp(c: CostTotals) {
    c.total == c.input.paid + c.input.cacheRead + c.input.cacheWrite + c.paidOutput
  }

  lemma {:induction false} CostsSum(costs: seq<CostTotals>, k: nat)
    requires k <= |costs| && forall i :: 0 <= i < |costs| ==> AddsUp(costs[i])
    ensures AddsUp(SumCosts(costs, k))
  {
    if k > 0 {
      CostsSum(costs, k - 1);
      assert AddsUp(costs[k - 1]);
    }
  }

  lemma OutputPrice(setup: Setup, model: string, t: TokenTotals)
    ensures Price(ResolveModelRates(setup, model), t).paidOutput * 1000000.0
         == t.volume.output as real * ResolvePricing(setup, model).outputPer1M
  {
  }

  /** Output is charged at the model's output price. */
  lemma OutputCharged(setup: Setup, requests: seq<Request>, model: string, totals: Totals)
    requires SingleModel(requests, model) && totals == Summarize(setup, requests)
    ensures totals.costs.paidOutput * 1000000.0
         == totals.tokens.volume.output as real * ResolvePricing(setup, model).outputPer1M
  {
    CostsAreThePriceOfTheTokens(setup, requests, model);
    OutputPrice(setup, model, totals.tokens);
  }

  /** The total cost of a session is the sum of its parts, whatever models its turns use. */
  lemma {:induction false} CostsAddUp(setup: Setup, requests: seq<Request>)
    ensures AddsUp(Summarize(setup, requests).costs)
  {
    var costs := CostScores(setup, requests);
    forall i | 0 <= i < |costs|
      ensures AddsUp(costs[i])
    {
      assert costs[i] == CostsAt(setup, requests, i);
    }
    CostsSum(costs, |costs|);
  }

  /** The input cost of a session as simulated. */
  function InputCost(costs: CostTotals): real {
    costs.input.paid + costs.input.cacheRead + costs.input.cacheWrite
  }

  /** What the same requests would cost with every forwarded token at the full input rate. */
  function UncachedCost(setup: Setup, model: string, tokens: TokenTotals): real {
    Cost(tokens.volume.forwarded, ResolveModelRates(setup, model).input)
  }

  /** `no_cache_total_cost_usd`: reads at the full rate, and no writes. */
  function NoCacheTotal(costs: CostTotals): real {
    costs.input.paid + costs.input.cacheRead * 10.0 + costs.paidOutput
  }

  /** What the reported figure leaves out: the written tokens at the full input rate. */
  lemma NoCacheGap(setup: Setup, model: string, t: TokenTotals)
    requires Conserved(t)
    ensures var rates := ResolveModelRates(setup, model);
            UncachedCost(setup, model, t) + Price(rates, t).paidOutput - NoCacheTotal(Price(rates, t))
            == Cost(t.split.cacheWrite, rates.input)
  {
    var rates := ResolveModelRates(setup, model);
    var p := rates.input;
    var read, write, regular := t.split.cacheRead as real, t.split.cacheWrite as real, t.split.regular as real;
    assert rates.cacheRead == p * 0.10;
    assert read * rates.cacheRead * 10.0 == read * p;
    assert t.volume.forwarded as real == read + write + regular;
    assert (read + write + regular) * p == read * p + write * p + regular * p;
  }

  lemma NothingCosts(tokens: nat, rate: real)
    requires rate > 0.0
    ensures Cost(tokens, rate) >= 0.0 && (Cost(tokens, rate) == 0.0 <==> tokens == 0)
  {
    if tokens > 0 {
      assert tokens as real * rate > 0.0;
    }
  }

  lemma NoCachePriceExactlyWhen(setup: Setup, model: string, t: TokenTotals)
    requires Conserved(t) && ResolvePricing(setup, model).inputPer1M > 0.0
    ensures var costs := Price(ResolveModelRates(setup, model), t);
            && NoCacheTotal(costs) <= UncachedCost(setup, model, t) + costs.paidOutput
            && (NoCacheTotal(costs) == UncachedCost(setup, model, t) + costs.paidOutput <==> t.split.cacheWrite == 0)
  {
    NoCacheGap(setup, model, t);
    NothingCosts(t.split.cacheWrite, ResolveModelRates(setup, model).input);
  }

  /** With one priced model the reported cost without cache is the price of all forwarded tokens and
      the output if and only if nothing was written to the cache. */
  lemma NoCacheCostExactlyWhen(setup: Setup, requests: seq<Request>, model: string, totals: Totals)
    requires SingleModel(requests, model) && totals == Summarize(setup, requests)
    requires ResolvePricing(setup, model).inputPer1M > 0.0
    ensures NoCacheTotal(totals.costs) <= UncachedCost(setup, model, totals.tokens) + totals.costs.paidOutput
    ensures NoCacheTotal(totals.costs) == UncachedCost(setup, model, totals.tokens) + totals.costs.paidOutput
       <==> totals.tokens.split.cacheWrite == 0
  {
    CostsAreThePriceOfTheTokens(setup, requests, model);
    Conservation(setup, requests);
    NoCachePriceExactlyWhen(setup, model, totals.tokens);
  }

  /** How far the simulated input cost falls below the uncached cost. */
  lemma InputCostGap(setup: Setup, model: string, t: TokenTotals)
    requires Conserved(t)
    ensures var rates := ResolveModelRates(setup, model);
            UncachedCost(setup, model, t) - InputCost(Price(rates, t))
            == rates.input * (0.9 * t.split.cacheRead as real
                              - (setup.writeMultiplier - 1.0) * t.split.cacheWrite as real)
  {
    var rates := ResolveModelRates(setup, model);
    var p := rates.input;
    assert rates.cacheRead == p * 0.10;
    assert rates.cacheWrite == p * setup.writeMultiplier;
    assert t.volume.forwarded as real
        == t.split.cacheRead as real + t.split.cacheWrite as real + t.split.regular as real;
  }

  lemma GapSign(p: real, m: real, read: real, write: real)
    requires p >= 0.0 && 0.0 <= write <= read && m <= 1.9
    ensures p * (0.9 * read - (m - 1.0) * write) >= 0.0
  {
    assert (m - 1.0) * write <= 0.9 * write;
  }

  lemma GapSignSharp(p: real, m: real, reused: real)
    requires p > 0.0 && reused > 0.0
    ensures p * (0.9 * reused - (m - 1.0) * reused) >= 0.0 <==> m <= 1.9
  {
    var gap := 0.9 * reused - (m - 1.0) * reused;
    assert gap == (1.9 - m) * reused;
    assert gap >= 0.0 <==> m <= 1.9;
    if gap < 0.0 {
      assert p * gap < 0.0;
    }
  }

  ghost predicate ChargesInput(setup: Setup, model: string) {
    ResolvePricing(setup, model).inputPer1M >= 0.0
  }

  lemma CheapWhenReadBack(setup: Setup, model: string, t: TokenTotals)
    requires Conserved(t) && t.split.cacheWrite <= t.split.cacheRead
    requires ChargesInput(setup, model) && setup.writeMultiplier <= 1.9
    ensures InputCost(Price(ResolveModelRates(setup, model), t)) <= UncachedCost(setup, model, t)
  {
    InputCostGap(setup, model, t);
    GapSign(ResolveModelRates(setup, model).input, setup.writeMultiplier, t.split.cacheRead as real,
            t.split.cacheWrite as real);
  }

  lemma CheapExactlyBelow(setup: Setup, model: string, t: TokenTotals)
    requires Conserved(t) && t.split.cacheWrite == t.split.cacheRead > 0
    requires ResolvePricing(setup, model).inputPer1M > 0.0
    ensures InputCost(Price(ResolveModelRates(setup, model), t)) <= UncachedCost(setup, model, t)
       <==> setup.writeMultiplier <= 1.9
  {
    InputCostGap(setup, model, t);
    GapSignSharp(ResolveModelRates(setup, model).input, setup.writeMultiplier, t.split.cacheRead as real);
  }

  /** For any write multiplier up to 1.9 a session never costs more than its forwarded tokens
      at the full input rate, whatever the mode forwarded and however often it broke the cache. */
  lemma {:induction false} CachingNeverCostsMore(setup: Setup, requests: seq<Request>, model: string)
    requires SingleModel(requests, model) && ChargesInput(setup, model) && setup.writeMultiplier <= 1.9
    ensures var totals := Summarize(setup, requests);
            InputCost(totals.costs) <= UncachedCost(setup, model, totals.tokens)
  {
    CostsAreThePriceOfTheTokens(setup, requests, model);
    Conservation(setup, requests);
    WritesNeverExceedReads(setup, requests, model);
    CheapWhenReadBack(setup, model, Summarize(setup, requests).tokens);
  }

  /** A two-turn session inside the TTL reads exactly what it wrote. */
  lemma {:induction false} TwoTurnReuse(setup: Setup, requests: seq<Request>, model: string)
    requires |requests| == 2 && SingleModel(requests, model)
    requires requests[1].turn.timestamp - requests[0].turn.timestamp <= setup.ttl
    ensures var t := Summarize(setup, requests).tokens.split;
            t.cacheRead == t.cacheWrite
              == SharedTokens(TokenizerOf(setup, model), requests[0].forwarded, requests[1].forwarded)
  {
    var scores := TokenScores(setup, requests);
    var first, second := scores[0].split, scores[1].split;
    assert first.cacheRead == 0 && second.cacheWrite == 0 && first.cacheWrite == second.cacheRead;
    assert SumSplit(scores, 1).cacheRead == 0 && SumSplit(scores, 1).cacheWrite == first.cacheWrite by {
      assert SumSplit(scores, 0) == Split(0, 0, 0);
    }
    assert SumSplit(scores, 2).cacheRead == SumSplit(scores, 1).cacheRead + second.cacheRead;
    assert SumSplit(scores, 2).cacheWrite == SumSplit(scores, 1).cacheWrite + second.cacheWrite;
  }

  /** 1.9 is exact: a two-turn session that reuses anything meets the bound if and only if the
      multiplier does. */
  lemma {:induction false} BoundIsSharp(setup: Setup, requests: seq<Request>, model: string)
    requires |requests| == 2 && SingleModel(requests, model)
    requires ResolvePricing(setup, model).inputPer1M > 0.0
    requires requests[1].turn.timestamp - requests[0].turn.timestamp <= setup.ttl
    requires SharedTokens(TokenizerOf(setup, model), requests[0].forwarded, requests[1].forwarded) > 0
    ensures var totals := Summarize(setup, requests);
            InputCost(totals.costs) <= UncachedCost(setup, model, totals.tokens) <==> setup.writeMultiplier <= 1.9
  {
    CostsAreThePriceOfTheTokens(setup, requests, model);
    Conservation(setup, requests);
    TwoTurnReuse(setup, requests, model);
    CheapExactlyBelow(setup, model, Summarize(setup, requests).tokens);
  }

  // ----- Counters -----

  ghost predicate Partitioned(r: RewriteTurns) {
    && r.reach.all == r.reach.retroactive + r.reach.latestOnly
    && r.reach.all == r.outcomes.stable + r.outcomes.busting + r.outcomes.nonEligible
  }

  /** One turn's counters: a rewrite is counted once on each side, a busting rewrite is a cache
      bust, and every turn but the first is eligible or expired. */
  lemma {:induction false} TurnPartition(setup: Setup, requests: seq<Request>, i: nat)
    requires i < |requests|
    ensures Partitioned(RewritesAt(setup, requests, i))
    ensures var c := CacheAt(setup, requests, i);
            && RewritesAt(setup, requests, i).outcomes.busting <= c.busts <= c.eligible
            && c.eligible + c.ttlExpiries == if i == 0 then 0 else 1
  {
  }

  lemma {:induction false} PartitionSum(rewrites: seq<RewriteTurns>, cache: seq<CacheTurns>, k: nat)
    requires k <= |rewrites| == |cache|
    requires forall i :: 0 <= i < |rewrites| ==> Partitioned(rewrites[i])
    requires forall i :: 0 <= i < |cache| ==> rewrites[i].outcomes.busting <= cache[i].busts <= cache[i].eligible
    requires forall i :: 0 <= i < |cache| ==> cache[i].eligible + cache[i].ttlExpiries == if i == 0 then 0 else 1
    ensures Partitioned(RewriteTurns(SumOutcomes(rewrites, k), SumReach(rewrites, k)))
    ensures var c := SumCache(cache, k);
            && SumOutcomes(rewrites, k).busting <= c.busts <= c.eligible
            && c.eligible + c.ttlExpiries == if k == 0 then 0 else k - 1
  {
    if k > 0 {
      PartitionSum(rewrites, cache, k - 1);
      assert Partitioned(rewrites[k - 1]);
    }
  }

  /** The counters of a whole session, although busts are counted one iteration after rewrites. */
  lemma {:induction false} CounterPartition(setup: Setup, requests: seq<Request>)
    ensures var totals := Summarize(setup, requests);
            && Partitioned(totals.rewrites)
            && totals.rewrites.outcomes.busting <= totals.cache.busts <= totals.cache.eligible
            && totals.cache.eligible + totals.cache.ttlExpiries == if requests == [] then 0 else totals.requests - 1
  {
    var rewrites, cache := RewriteScores(setup, requests), CacheScores(setup, requests);
    forall i | 0 <= i < |requests|
      ensures Partitioned(rewrites[i])
      ensures rewrites[i].outcomes.busting <= cache[i].busts <= cache[i].eligible
      ensures cache[i].eligible + cache[i].ttlExpiries == if i == 0 then 0 else 1
    {
      TurnPartition(setup, requests, i);
    }
    PartitionSum(rewrites, cache, |requests|);
  }

  // ----- Stable prefixes -----

  ghost predicate Growing(requests: seq<Request>) {
    forall i :: 0 < i < |requests| ==> requests[i - 1].forwarded <= requests[i].forwarded
  }

  /** Baseline and cache mode answer every request with an extension of the last one and its
      answer, for any compressor. */
  lemma {:induction false} ForwardedGrows(proxy: Proxy, mode: Mode, turns: seq<Turn>, i: nat)
    requires 0 < i < |turns| && mode != TokenMode
    ensures Forwarded(proxy, mode, turns, i - 1) + [turns[i - 1].assistant] <= Forwarded(proxy, mode, turns, i)
  {
    if mode == CacheMode {
      assert ForwardedContext(proxy, turns, i) <= Forwarded(proxy, mode, turns, i);
    } else {
      assert Context(turns, i) == Conversation(turns, i - 1) + [turns[i - 1].assistant];
    }
  }

  lemma {:induction false} RequestsGrow(setup: Setup, proxy: Proxy, mode: Mode, turns: seq<Turn>)
    requires mode != TokenMode
    ensures Growing(Requests(setup, proxy, mode, turns))
  {
    var requests := Requests(setup, proxy, mode, turns);
    forall i | 0 < i < |requests|
      ensures requests[i - 1].forwarded <= requests[i].forwarded
    {
      ForwardedGrows(proxy, mode, turns, i);
      assert requests[i - 1].forwarded == Forwarded(proxy, mode, turns, i - 1);
      assert requests[i].forwarded == Forwarded(proxy, mode, turns, i);
    }
  }

  lemma {:induction false} NoBustsSum(rewrites: seq<RewriteTurns>, cache: seq<CacheTurns>, k: nat)
    requires k <= |rewrites| == |cache|
    requires forall i :: 0 <= i < |cache| ==> rewrites[i].outcomes.busting == cache[i].busts == 0
    ensures SumOutcomes(rewrites, k).busting == SumCache(cache, k).busts == 0
  {
    if k > 0 {
      NoBustsSum(rewrites, cache, k - 1);
      assert rewrites[k - 1].outcomes.busting == cache[k - 1].busts == 0;
    }
  }

  lemma {:induction false} GrowingNeverBusts(setup: Setup, requests: seq<Request>)
    requires Growing(requests)
    ensures var totals := Summarize(setup, requests); totals.cache.busts == 0 && totals.rewrites.outcomes.busting == 0
  {
    var rewrites, cache := RewriteScores(setup, requests), CacheScores(setup, requests);
    forall i | 0 <= i < |requests|
      ensures rewrites[i].outcomes.busting == cache[i].busts == 0
    {
      assert i > 0 ==> requests[i - 1].forwarded <= requests[i].forwarded;
    }
    NoBustsSum(rewrites, cache, |requests|);
  }

  /** For every session and every compressor, cache mode never breaks the provider's prefix cache. */
  lemma {:induction false} CacheModeNeverBusts(setup: Setup, proxy: Proxy, mode: Mode, turns: seq<Turn>)
    requires mode != TokenMode
    ensures var totals := SessionTotals(setup, proxy, mode, turns);
            totals.cache.busts == 0 && totals.rewrites.outcomes.busting == 0
  {
    RequestsGrow(setup, proxy, mode, turns);
    GrowingNeverBusts(setup, Requests(setup, proxy, mode, turns));
  }

  ghost predicate AllGapsWithinTtl(setup: Setup, requests: seq<Request>) {
    forall i :: 0 < i < |requests| ==> requests[i].turn.timestamp - requests[i - 1].turn.timestamp <= setup.ttl
  }

  /** With growing requests, one model and no expiry, everything but the reply overhead is cached
      on every turn but the last. */
  lemma {:induction false} EverythingIsCached(setup: Setup, requests: seq<Request>, model: string, i: nat)
    requires i + 1 < |requests|
    requires Growing(requests) && SingleModel(requests, model) && AllGapsWithinTtl(setup, requests)
    ensures var t := TokensAt(setup, requests, i);
            && t.split.cacheRead == (if i == 0 then 0 else Tokens(TokenizerOf(setup, model), requests[i - 1].forwarded))
            && t.split.cacheRead + t.split.cacheWrite == Tokens(TokenizerOf(setup, model), requests[i].forwarded)
            && t.split.regular == TokenizerOf(setup, model).replyOverhead
  {
    var tokenizer := TokenizerOf(setup, model);
    TurnConservation(setup, requests, i);
    assert requests[i + 1].turn.timestamp - requests[i].turn.timestamp <= setup.ttl;
    assert requests[i].forwarded <= requests[i + 1].forwarded;
    SharedTokensExtension(tokenizer, requests[i].forwarded, requests[i + 1].forwarded);
    if i > 0 {
      SharedTokensBounds(tokenizer, requests[i - 1].forwarded, requests[i].forwarded);
      SharedTokensExtension(tokenizer, requests[i - 1].forwarded, requests[i].forwarded);
    }
  }

  /** Each score but the last reads the previous size and writes the rest of its own. */
  ghost predicate Telescopes(scores: seq<TokenTotals>, sizes: seq<nat>, i: nat)
    requires i < |scores| == |sizes|
  {
    if i + 1 == |scores| then scores[i].split.cacheWrite == 0
    else
      && scores[i].split.cacheRead + scores[i].split.cacheWrite == sizes[i]
      && scores[i].split.cacheRead == if i == 0 then 0 else sizes[i - 1]
  }

  lemma {:induction false} TelescopingSum(scores: seq<TokenTotals>, sizes: seq<nat>, k: nat)
    requires 0 < k <= |scores| == |sizes| && |scores| > 1
    requires forall i :: 0 <= i < |scores| ==> Telescopes(scores, sizes, i)
    ensures SumSplit(scores, k).cacheWrite == if k == |scores| then sizes[k - 2] else sizes[k - 1]
  {
    assert Telescopes(scores, sizes, k - 1);
    if k > 1 {
      TelescopingSum(scores, sizes, k - 1);
    } else {
      assert SumSplit(scores, 0) == Split(0, 0, 0);
    }
  }

  function RequestSizes(tokenizer: Tokenizer, requests: seq<Request>): (sizes: seq<nat>)
    ensures |sizes| == |requests|
    ensures forall i {:trigger sizes[i]} :: 0 <= i < |requests| ==> sizes[i] == Tokens(tokenizer, requests[i].forwarded)
  {
    seq(|requests|, i requires 0 <= i < |requests| => Tokens(tokenizer, requests[i].forwarded))
  }

  lemma TelescopesAt(setup: Setup, requests: seq<Request>, model: string, scores: seq<TokenTotals>, sizes: seq<nat>,
                     i: nat)
    requires Growing(requests) && SingleModel(requests, model) && AllGapsWithinTtl(setup, requests)
    requires scores == TokenScores(setup, requests) && sizes == RequestSizes(TokenizerOf(setup, model), requests)
    requires i < |requests|
    ensures Telescopes(scores, sizes, i)
  {
    assert scores[i] == TokensAt(setup, requests, i);
    if i + 1 < |requests| {
      EverythingIsCached(setup, requests, model, i);
    }
  }

  lemma ScoresTelescope(setup: Setup, requests: seq<Request>, model: string, scores: seq<TokenTotals>,
                        sizes: seq<nat>)
    requires |requests| > 1
    requires Growing(requests) && SingleModel(requests, model) && AllGapsWithinTtl(setup, requests)
    requires scores == TokenScores(setup, requests) && sizes == RequestSizes(TokenizerOf(setup, model), requests)
    ensures SumSplit(scores, |requests|).cacheWrite == sizes[|requests| - 2]
  {
    forall i | 0 <= i < |requests|
      ensures Telescopes(scores, sizes, i)
    {
      TelescopesAt(setup, requests, model, scores, sizes, i);
    }
    TelescopingSum(scores, sizes, |requests|);
  }

  /** Under the same conditions each token is written to the cache once: the writes of a session
      telescope to the size of the last request but one. */
  lemma {:induction false} WritesTelescope(setup: Setup, requests: seq<Request>, model: string)
    requires |requests| > 1
    requires Growing(requests) && SingleModel(requests, model) && AllGapsWithinTtl(setup, requests)
    ensures Summarize(setup, requests).tokens.split.cacheWrite
         == Tokens(TokenizerOf(setup, model), requests[|requests| - 2].forwarded)
  {
    ScoresTelescope(setup, requests, model, TokenScores(setup, requests),
                    RequestSizes(TokenizerOf(setup, model), requests));
  }

  /** The raw size of a request is the size of its conversation when the session has one model. */
  lemma {:induction false} RawTokensCountConversation(setup: Setup, turns: seq<Turn>, model: string, i: nat)
    requires i < |turns| && forall j :: 0 <= j < |turns| ==> turns[j].model == model
    ensures RawTokens(setup, turns, i) == Tokens(TokenizerOf(setup, model), Conversation(turns, i))
  {
    var tokenizer := TokenizerOf(setup, model);
    TokensConcat(tokenizer, Context(turns, i), turns[i].input);
    if i > 0 {
      RawTokensCountConversation(setup, turns, model, i - 1);
      TokensConcat(tokenizer, Conversation(turns, i - 1), [turns[i - 1].assistant]);
      assert Tokens(tokenizer, [turns[i - 1].assistant]) == Count(tokenizer, turns[i - 1].assistant);
    }
  }

  ghost predicate OneModel(turns: seq<Turn>, model: string) {
    forall j :: 0 <= j < |turns| ==> turns[j].model == model
  }

  ghost predicate NoExpiry(setup: Setup, turns: seq<Turn>) {
    forall j :: 0 < j < |turns| ==> turns[j].timestamp - turns[j - 1].timestamp <= setup.ttl
  }

  lemma SessionConditions(setup: Setup, proxy: Proxy, mode: Mode, turns: seq<Turn>, model: string,
                          requests: seq<Request>)
    requires OneModel(turns, model) && NoExpiry(setup, turns)
    requires requests == Requests(setup, proxy, mode, turns)
    ensures SingleModel(requests, model) && AllGapsWithinTtl(setup, requests)
  {
    forall j | 0 <= j < |turns|
      ensures requests[j].turn == turns[j]
    {
      assert requests[j] == RequestAt(setup, proxy, mode, turns, j);
    }
  }

  /** So in the baseline and in cache mode, for any compressor, a session with one model and no expired
      gap pays in full for nothing but the reply overhead on every turn except the last. */
  lemma {:induction false} OnlyOverheadIsRegular(setup: Setup, proxy: Proxy, mode: Mode, turns: seq<Turn>,
                                                 model: string, requests: seq<Request>, i: nat)
    requires mode != TokenMode && OneModel(turns, model) && NoExpiry(setup, turns)
    requires requests == Requests(setup, proxy, mode, turns) && i + 1 < |requests|
    ensures TokensAt(setup, requests, i).split.regular == setup.replyOverhead
  {
    RequestsGrow(setup, proxy, mode, turns);
    SessionConditions(setup, proxy, mode, turns, model, requests);
    EverythingIsCached(setup, requests, model, i);
  }

  /** And its writes add up to the request of its last turn but one. */
  lemma {:induction false} SessionWritesTelescope(setup: Setup, proxy: Proxy, mode: Mode, turns: seq<Turn>,
                                                  model: string, requests: seq<Request>)
    requires mode != TokenMode && OneModel(turns, model) && NoExpiry(setup, turns)
    requires requests == Requests(setup, proxy, mode, turns) && |requests| > 1
    ensures Summarize(setup, requests).tokens.split.cacheWrite
         == Tokens(TokenizerOf(setup, model), Forwarded(proxy, mode, turns, |turns| - 2))
  {
    RequestsGrow(setup, proxy, mode, turns);
    SessionConditions(setup, proxy, mode, turns, model, requests);
    WritesTelescope(setup, requests, model);
    assert requests[|turns| - 2] == RequestAt(setup, proxy, mode, turns, |turns| - 2);
  }
}
