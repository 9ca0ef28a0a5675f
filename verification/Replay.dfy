/** What a replay of one session means: the requests, what each mode forwards, and the score of each turn. */
module Replay {
  import opened Messages

  datatype Mode = Baseline | TokenMode | CacheMode

  datatype Turn = Turn(
    requestId: string,
    model: string,
    timestamp: int,
    input: seq<Message>,
    assistant: Message,
    outputTokens: nat
  )

  datatype Pricing = Pricing(inputPer1M: real, outputPer1M: real)

  /** What the scoring depends on: tokenizers, the pricing table and the two parameters of a run. */
  datatype Setup = Setup(
    weigh: (string, Message) -> nat,
    replyOverhead: nat,
    pricing: map<string, Pricing>,
    ttl: int,
    writeMultiplier: real
  )

  /** The proxy's compressors. They see the turns so far, so they may be stateful within a session. */
  datatype Proxy = Proxy(
    forwardToken: seq<Turn> -> seq<Message>,
    compress: (seq<Turn>, seq<Message>) -> seq<Message>
  )

  function TokenizerOf(setup: Setup, model: string): Tokenizer {
    Tokenizer(model, setup.weigh, setup.replyOverhead)
  }

  // ----- Prices -----

  datatype Rates = Rates(input: real, output: real, cacheRead: real, cacheWrite: real)

  function ResolvePricing(setup: Setup, model: string): Pricing {
    if model in setup.pricing then setup.pricing[model]
    else if Contains(model, "opus") then Pricing(15.0, 75.0)
    else if Contains(model, "haiku") then Pricing(1.0, 5.0)
    else Pricing(3.0, 15.0)
  }

  function ResolveModelRates(setup: Setup, model: string): Rates {
    var pricing := ResolvePricing(setup, model);
    Rates(
      pricing.inputPer1M / 1000000.0,
      pricing.outputPer1M / 1000000.0,
      (pricing.inputPer1M * 0.10) / 1000000.0,
      (pricing.inputPer1M * setup.writeMultiplier) / 1000000.0)
  }

  function Cost(tokens: nat, rate: real): real {
    tokens as real * rate
  }

  // ----- Summaries -----

  datatype Volume = Volume(raw: nat, forwarded: nat, output: nat)

  /** How the forwarded tokens are paid for. */
  datatype Split = Split(cacheRead: nat, cacheWrite: nat, regular: nat)

  datatype TokenTotals = TokenTotals(volume: Volume, split: Split)

  datatype InputCosts = InputCosts(paid: real, cacheRead: real, cacheWrite: real)

  datatype CostTotals = CostTotals(input: InputCosts, paidOutput: real, total: real)

  datatype CacheTurns = CacheTurns(eligible: nat, busts: nat, ttlExpiries: nat)

  /** What rewritten turns did to the cached prefix. */
  datatype Outcomes = Outcomes(stable: nat, busting: nat, nonEligible: nat)

  /** How far back rewritten turns reached. */
  datatype Reach = Reach(all: nat, retroactive: nat, latestOnly: nat)

  datatype RewriteTurns = RewriteTurns(outcomes: Outcomes, reach: Reach)

  /** The counters of a mode summary. */
  datatype Totals = Totals(
    sessions: nat,
    requests: nat,
    tokens: TokenTotals,
    costs: CostTotals,
    cache: CacheTurns,
    rewrites: RewriteTurns
  )

  /** A summary in which nothing has been scored yet. */
  function NothingScored(sessions: nat): Totals {
    Totals(sessions, 0, TokenTotals(Volume(0, 0, 0), Split(0, 0, 0)), CostTotals(InputCosts(0.0, 0.0, 0.0), 0.0, 0.0),
           CacheTurns(0, 0, 0), RewriteTurns(Outcomes(0, 0, 0), Reach(0, 0, 0)))
  }

  // ----- Scoring one turn from its neighbours -----

  /** A request as it went out. */
  datatype Sent = Sent(forwarded: seq<Message>, timestamp: int)

  predicate WithinTtl(setup: Setup, timestamp: int, previous: Option<Sent>) {
    previous.Some? && timestamp - previous.value.timestamp <= setup.ttl
  }

  /** The turn could have hit a live cache entry, and no longer extends what was cached. */
  predicate Busts(setup: Setup, forwarded: seq<Message>, timestamp: int, previous: Option<Sent>) {
    && WithinTtl(setup, timestamp, previous)
    && previous.value.forwarded != []
    && !(previous.value.forwarded <= forwarded)
  }

  function ReadTokens(setup: Setup, turn: Turn, forwarded: seq<Message>, previous: Option<Sent>): nat {
    if WithinTtl(setup, turn.timestamp, previous)
    then SharedTokens(TokenizerOf(setup, turn.model), previous.value.forwarded, forwarded)
    else 0
  }

  /** What the next request will find in the cache, if it comes in time. */
  function ReusedTokens(setup: Setup, turn: Turn, forwarded: seq<Message>, next: Option<Sent>): nat {
    if next.Some? && WithinTtl(setup, next.value.timestamp, Some(Sent(forwarded, turn.timestamp)))
    then SharedTokens(TokenizerOf(setup, turn.model), forwarded, next.value.forwarded)
    else 0
  }

  /** The token split of one turn, from the request before it and the request after it. */
  function TurnTokens(setup: Setup, turn: Turn, rawInput: nat, forwarded: seq<Message>,
                      previous: Option<Sent>, next: Option<Sent>): TokenTotals
  {
    var tokens := ListTokens(TokenizerOf(setup, turn.model), forwarded);
    var read := ReadTokens(setup, turn, forwarded, previous);
    var reused := ReusedTokens(setup, turn, forwarded, next);
    var write := if reused < read then 0 else reused - read;
    TokenTotals(Volume(rawInput, tokens, turn.outputTokens),
                Split(read, write, if tokens < read + write then 0 else tokens - read - write))
  }

  function Price(rates: Rates, tokens: TokenTotals): CostTotals {
    var paidInput := Cost(tokens.split.regular, rates.input);
    var cacheRead := Cost(tokens.split.cacheRead, rates.cacheRead);
    var cacheWrite := Cost(tokens.split.cacheWrite, rates.cacheWrite);
    var paidOutput := Cost(tokens.volume.output, rates.output);
    CostTotals(InputCosts(paidInput, cacheRead, cacheWrite), paidOutput,
               paidInput + cacheRead + cacheWrite + paidOutput)
  }

  /** The cache counters of one turn, from the request before it. */
  function TurnCache(setup: Setup, forwarded: seq<Message>, timestamp: int, previous: Option<Sent>): CacheTurns {
    CacheTurns(
      if WithinTtl(setup, timestamp, previous) then 1 else 0,
      if Busts(setup, forwarded, timestamp, previous) then 1 else 0,
      if previous.Some? && !WithinTtl(setup, timestamp, previous) then 1 else 0)
  }

  /** Whether the forwarded request differs from the conversation, and whether the
      difference reaches back before the latest turn. */
  function RewriteScope(original: seq<Message>, forwarded: seq<Message>, stablePrefix: nat): (bool, bool) {
    if original == forwarded then (false, false)
    else
      var shorter := if |original| < |forwarded| then |original| else |forwarded|;
      var stable := if stablePrefix < shorter then stablePrefix else shorter;
      if |forwarded| < stablePrefix then (true, true)
      else (true, stable > 0 && forwarded[..stable] != original[..stable])
  }

  /** The rewrite counters of one turn, from the request before it. */
  function TurnRewrites(setup: Setup, original: seq<Message>, stablePrefix: nat,
                        forwarded: seq<Message>, timestamp: int, previous: Option<Sent>): RewriteTurns
  {
    var (rewrite, retroactive) := RewriteScope(original, forwarded, stablePrefix);
    if !rewrite then RewriteTurns(Outcomes(0, 0, 0), Reach(0, 0, 0))
    else
      var eligible := WithinTtl(setup, timestamp, previous) && previous.value.forwarded != [];
      var preserved := eligible && previous.value.forwarded <= forwarded;
      RewriteTurns(
        if preserved then Outcomes(1, 0, 0) else if eligible then Outcomes(0, 1, 0) else Outcomes(0, 0, 1),
        if retroactive then Reach(1, 1, 0) else Reach(1, 0, 1))
  }

  // ----- The requests of a session -----

  /** The conversation before request `i`: every earlier turn with its answer. */
  function Context(turns: seq<Turn>, i: nat): seq<Message>
    requires i <= |turns|
    decreases i, 0
  {
    if i == 0 then [] else Conversation(turns, i - 1) + [turns[i - 1].assistant]
  }

  /** The conversation that request `i` asks about. */
  function Conversation(turns: seq<Turn>, i: nat): seq<Message>
    requires i < |turns|
    decreases i, 1
  {
    Context(turns, i) + turns[i].input
  }

  /** What the mode sends for request `i`. */
  function Forwarded(proxy: Proxy, mode: Mode, turns: seq<Turn>, i: nat): seq<Message>
    requires i < |turns|
    decreases i, 1
  {
    match mode
    case Baseline => Conversation(turns, i)
    case TokenMode => proxy.forwardToken(turns[..i + 1])
    case CacheMode =>
      if i == 0 then Conversation(turns, 0)
      else if turns[i].input == [] then ForwardedContext(proxy, turns, i)
      else ForwardedContext(proxy, turns, i) + proxy.compress(turns[..i + 1], turns[i].input)
  }

  /** Cache mode's view of the conversation before request `i`: the last request as sent, then its answer. */
  function ForwardedContext(proxy: Proxy, turns: seq<Turn>, i: nat): seq<Message>
    requires 0 < i <= |turns|
    decreases i, 0
  {
    Forwarded(proxy, CacheMode, turns, i - 1) + [turns[i - 1].assistant]
  }

  /** The raw size of the conversation before request `i`, each turn counted by its own model's tokenizer. */
  function ContextTokens(setup: Setup, turns: seq<Turn>, i: nat): nat
    requires i <= |turns|
    decreases i, 0
  {
    if i == 0 then 0
    else RawTokens(setup, turns, i - 1) + Count(TokenizerOf(setup, turns[i - 1].model), turns[i - 1].assistant)
  }

  function RawTokens(setup: Setup, turns: seq<Turn>, i: nat): nat
    requires i < |turns|
    decreases i, 1
  {
    ContextTokens(setup, turns, i) + Tokens(TokenizerOf(setup, turns[i].model), turns[i].input)
  }

  // ----- The score of a session, however its requests came about -----

  /** One request of a session: the conversation it is about and what was forwarded for it. */
  datatype Request = Request(
    turn: Turn,
    rawInput: nat,
    original: seq<Message>,
    priorCount: nat,
    forwarded: seq<Message>
  ) {
    function AsSent(): Sent {
      Sent(forwarded, turn.timestamp)
    }
  }

  function SentBefore(requests: seq<Request>, i: nat): Option<Sent>
    requires i <= |requests|
  {
    if i == 0 then None else Some(requests[i - 1].AsSent())
  }

  function SentAfter(requests: seq<Request>, i: nat): Option<Sent>
    requires i < |requests|
  {
    if i + 1 == |requests| then None else Some(requests[i + 1].AsSent())
  }

  function TokensAt(setup: Setup, requests: seq<Request>, i: nat): TokenTotals
    requires i < |requests|
  {
    var r := requests[i];
    TurnTokens(setup, r.turn, r.rawInput, r.forwarded, SentBefore(requests, i), SentAfter(requests, i))
  }

  function CostsAt(setup: Setup, requests: seq<Request>, i: nat): CostTotals
    requires i < |requests|
  {
    Price(ResolveModelRates(setup, requests[i].turn.model), TokensAt(setup, requests, i))
  }

  function CacheAt(setup: Setup, requests: seq<Request>, i: nat): CacheTurns
    requires i < |requests|
  {
    TurnCache(setup, requests[i].forwarded, requests[i].turn.timestamp, SentBefore(requests, i))
  }

  function RewritesAt(setup: Setup, requests: seq<Request>, i: nat): RewriteTurns
    requires i < |requests|
  {
    var r := requests[i];
    TurnRewrites(setup, r.original, r.priorCount, r.forwarded, r.turn.timestamp, SentBefore(requests, i))
  }

  // The scores of all turns. Each list is described by its elements.

  function TokenScores(setup: Setup, requests: seq<Request>): (scores: seq<TokenTotals>)
    ensures |scores| == |requests|
    ensures forall i {:trigger scores[i]} :: 0 <= i < |requests| ==> scores[i] == TokensAt(setup, requests, i)
  {
    seq(|requests|, i requires 0 <= i < |requests| => TokensAt(setup, requests, i))
  }

  function CostScores(setup: Setup, requests: seq<Request>): (scores: seq<CostTotals>)
    ensures |scores| == |requests|
    ensures forall i {:trigger scores[i]} :: 0 <= i < |requests| ==> scores[i] == CostsAt(setup, requests, i)
  {
    seq(|requests|, i requires 0 <= i < |requests| => CostsAt(setup, requests, i))
  }

  function CacheScores(setup: Setup, requests: seq<Request>): (scores: seq<CacheTurns>)
    ensures |scores| == |requests|
    ensures forall i {:trigger scores[i]} :: 0 <= i < |requests| ==> scores[i] == CacheAt(setup, requests, i)
  {
    seq(|requests|, i requires 0 <= i < |requests| => CacheAt(setup, requests, i))
  }

  function RewriteScores(setup: Setup, requests: seq<Request>): (scores: seq<RewriteTurns>)
    ensures |scores| == |requests|
    ensures forall i {:trigger scores[i]} :: 0 <= i < |requests| ==> scores[i] == RewritesAt(setup, requests, i)
  {
    seq(|requests|, i requires 0 <= i < |requests| => RewritesAt(setup, requests, i))
  }

  // The first `k` scores added up.

  function SumVolume(scores: seq<TokenTotals>, k: nat): Volume
    requires k <= |scores|
  {
    if k == 0 then Volume(0, 0, 0)
    else
      var s, t := SumVolume(scores, k - 1), scores[k - 1].volume;
      Volume(s.raw + t.raw, s.forwarded + t.forwarded, s.output + t.output)
  }

  function SumSplit(scores: seq<TokenTotals>, k: nat): Split
    requires k <= |scores|
  {
    if k == 0 then Split(0, 0, 0)
    else
      var s, t := SumSplit(scores, k - 1), scores[k - 1].split;
      Split(s.cacheRead + t.cacheRead, s.cacheWrite + t.cacheWrite, s.regular + t.regular)
  }

  function SumCosts(scores: seq<CostTotals>, k: nat): CostTotals
    requires k <= |scores|
  {
    if k == 0 then CostTotals(InputCosts(0.0, 0.0, 0.0), 0.0, 0.0)
    else
      var s, c := SumCosts(scores, k - 1), scores[k - 1];
      CostTotals(
        InputCosts(s.input.paid + c.input.paid, s.input.cacheRead + c.input.cacheRead,
                   s.input.cacheWrite + c.input.cacheWrite),
        s.paidOutput + c.paidOutput, s.total + c.total)
  }

  function SumCache(scores: seq<CacheTurns>, k: nat): CacheTurns
    requires k <= |scores|
  {
    if k == 0 then CacheTurns(0, 0, 0)
    else
      var s, c := SumCache(scores, k - 1), scores[k - 1];
      CacheTurns(s.eligible + c.eligible, s.busts + c.busts, s.ttlExpiries + c.ttlExpiries)
  }

  function SumOutcomes(scores: seq<RewriteTurns>, k: nat): Outcomes
    requires k <= |scores|
  {
    if k == 0 then Outcomes(0, 0, 0)
    else
      var s, r := SumOutcomes(scores, k - 1), scores[k - 1].outcomes;
      Outcomes(s.stable + r.stable, s.busting + r.busting, s.nonEligible + r.nonEligible)
  }

  function SumReach(scores: seq<RewriteTurns>, k: nat): Reach
    requires k <= |scores|
  {
    if k == 0 then Reach(0, 0, 0)
    else
      var s, r := SumReach(scores, k - 1), scores[k - 1].reach;
      Reach(s.all + r.all, s.retroactive + r.retroactive, s.latestOnly + r.latestOnly)
  }

  /** The direct form of a summary: every turn contributes what its own window says. */
  function Summarize(setup: Setup, requests: seq<Request>): Totals
  {
    var n := |requests|;
    var tokens, rewrites := TokenScores(setup, requests), RewriteScores(setup, requests);
    Totals(1, n, TokenTotals(SumVolume(tokens, n), SumSplit(tokens, n)), SumCosts(CostScores(setup, requests), n),
           SumCache(CacheScores(setup, requests), n), RewriteTurns(SumOutcomes(rewrites, n), SumReach(rewrites, n)))
  }

  // ----- A session through one mode -----

  function RequestAt(setup: Setup, proxy: Proxy, mode: Mode, turns: seq<Turn>, i: nat): Request
    requires i < |turns|
  {
    Request(turns[i], RawTokens(setup, turns, i), Conversation(turns, i), |Context(turns, i)|,
            Forwarded(proxy, mode, turns, i))
  }

  function Requests(setup: Setup, proxy: Proxy, mode: Mode, turns: seq<Turn>): (requests: seq<Request>)
    ensures |requests| == |turns|
    ensures forall i {:trigger requests[i]} :: 0 <= i < |turns| ==>
      requests[i] == RequestAt(setup, proxy, mode, turns, i)
  {
    seq(|turns|, i requires 0 <= i < |turns| => RequestAt(setup, proxy, mode, turns, i))
  }

  function SessionTotals(setup: Setup, proxy: Proxy, mode: Mode, turns: seq<Turn>): Totals {
    Summarize(setup, Requests(setup, proxy, mode, turns))
  }

  // ----- Session files -----

  /** Where a session comes from. */
  datatype Origin = Origin(sessionId: string, project: string)

  /** A session file; `turns` is `None` when it holds nothing to replay. */
  datatype SessionFile = SessionFile(stem: string, project: string, turns: Option<seq<Turn>>) {
    function Source(): Origin {
      Origin(stem, project)
    }
  }

  /** `trim_replay_to_recent_turns` */
  function Trim(turns: seq<Turn>, recent: Option<int>): seq<Turn> {
    if recent.None? || recent.value <= 0 || |turns| <= recent.value then turns
    else turns[|turns| - recent.value..]
  }
}
