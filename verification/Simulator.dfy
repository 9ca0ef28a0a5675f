/** The replay loop: it classifies each request at once but scores it one turn late,
    when the next request is known. */
module Simulator {
  import opened Messages
  import opened Replay

  class ModeSummary {
    var sessions: nat
    var requests: nat
    var volume: Volume
    var split: Split
    var costs: CostTotals
    var cache: CacheTurns
    var outcomes: Outcomes
    var reach: Reach

    constructor (sessions: nat)
      ensures Value() == NothingScored(sessions)
    {
      this.sessions, requests := sessions, 0;
      volume, split := Volume(0, 0, 0), Split(0, 0, 0);
      costs := CostTotals(InputCosts(0.0, 0.0, 0.0), 0.0, 0.0);
      cache, outcomes, reach := CacheTurns(0, 0, 0), Outcomes(0, 0, 0), Reach(0, 0, 0);
    }

    function Value(): Totals
      reads this
    {
      Totals(sessions, requests, TokenTotals(volume, split), costs, cache, RewriteTurns(outcomes, reach))
    }

    /** The tokens of `forwarded` read from the cache, and the cache counters of the turn. */
    method ReadCache(setup: Setup, turn: Turn, forwarded: seq<Message>, previous: Option<Sent>) returns (read: nat)
      modifies this`cache
      ensures read == ReadTokens(setup, turn, forwarded, previous)
      ensures var turnCache := TurnCache(setup, forwarded, turn.timestamp, previous);
              && cache.eligible == old(cache.eligible) + turnCache.eligible
              && cache.busts == old(cache.busts) + turnCache.busts
              && cache.ttlExpiries == old(cache.ttlExpiries) + turnCache.ttlExpiries
    {
      read := 0;
      if WithinTtl(setup, turn.timestamp, previous) {
        read := CommonPrefixTokens(previous.value.forwarded, forwarded, TokenizerOf(setup, turn.model));
        cache := cache.(eligible := cache.eligible + 1);
        if previous.value.forwarded != [] && !(previous.value.forwarded <= forwarded) {
          cache := cache.(busts := cache.busts + 1);
        }
      } else if previous.Some? {
        cache := cache.(ttlExpiries := cache.ttlExpiries + 1);
      }
    }

    /** Splits the tokens of `turn` into cached, newly cached and full-price ones. */
    method MeasureTurn(setup: Setup, turn: Turn, rawInput: nat, forwarded: seq<Message>,
                       previous: Option<Sent>, next: Option<Sent>) returns (turnTokens: TokenTotals)
      modifies this`cache
      ensures turnTokens == TurnTokens(setup, turn, rawInput, forwarded, previous, next)
      ensures var turnCache := TurnCache(setup, forwarded, turn.timestamp, previous);
              && cache.eligible == old(cache.eligible) + turnCache.eligible
              && cache.busts == old(cache.busts) + turnCache.busts
              && cache.ttlExpiries == old(cache.ttlExpiries) + turnCache.ttlExpiries
    {
      var forwardedTokens := ListTokens(TokenizerOf(setup, turn.model), forwarded);
      var read := ReadCache(setup, turn, forwarded, previous);

      var write := 0;
      if next.Some? && WithinTtl(setup, next.value.timestamp, Some(Sent(forwarded, turn.timestamp))) {
        var nextCommon := CommonPrefixTokens(forwarded, next.value.forwarded, TokenizerOf(setup, turn.model));
        write := if nextCommon < read then 0 else nextCommon - read;
      }

      var regular := if forwardedTokens < read + write then 0 else forwardedTokens - read - write;
      turnTokens := TokenTotals(Volume(rawInput, forwardedTokens, turn.outputTokens), Split(read, write, regular));
    }

    /** Scores `turn` from the request before it and the request after it. */
    method ApplyTurnMetrics(setup: Setup, turn: Turn, rawInput: nat, forwarded: seq<Message>,
                            previous: Option<Sent>, next: Option<Sent>)
      modifies this`requests, this`volume, this`split, this`costs, this`cache
      ensures requests == old(requests) + 1
      ensures var t := TurnTokens(setup, turn, rawInput, forwarded, previous, next);
              && volume.raw == old(volume.raw) + t.volume.raw
              && volume.forwarded == old(volume.forwarded) + t.volume.forwarded
              && volume.output == old(volume.output) + t.volume.output
              && split.cacheRead == old(split.cacheRead) + t.split.cacheRead
              && split.cacheWrite == old(split.cacheWrite) + t.split.cacheWrite
              && split.regular == old(split.regular) + t.split.regular
      ensures var c := Price(ResolveModelRates(setup, turn.model),
                             TurnTokens(setup, turn, rawInput, forwarded, previous, next));
              && costs.input.paid == old(costs.input.paid) + c.input.paid
              && costs.input.cacheRead == old(costs.input.cacheRead) + c.input.cacheRead
              && costs.input.cacheWrite == old(costs.input.cacheWrite) + c.input.cacheWrite
              && costs.paidOutput == old(costs.paidOutput) + c.paidOutput
              && costs.total == old(costs.total) + c.total
      ensures var turnCache := TurnCache(setup, forwarded, turn.timestamp, previous);
              && cache.eligible == old(cache.eligible) + turnCache.eligible
              && cache.busts == old(cache.busts) + turnCache.busts
              && cache.ttlExpiries == old(cache.ttlExpiries) + turnCache.ttlExpiries
    {
      var turnTokens := MeasureTurn(setup, turn, rawInput, forwarded, previous, next);
      requests := requests + 1;
      var v, s, c := turnTokens.volume, turnTokens.split, Price(ResolveModelRates(setup, turn.model), turnTokens);
      volume := Volume(volume.raw + v.raw, volume.forwarded + v.forwarded, volume.output + v.output);
      split := Split(split.cacheRead + s.cacheRead, split.cacheWrite + s.cacheWrite, split.regular + s.regular);
      costs := CostTotals(
        InputCosts(costs.input.paid + c.input.paid, costs.input.cacheRead + c.input.cacheRead,
                   costs.input.cacheWrite + c.input.cacheWrite),
        costs.paidOutput + c.paidOutput, costs.total + c.total);
    }

    /** Counts a rewritten request against the request sent before it. */
    method RecordRewrite(setup: Setup, original: seq<Message>, stablePrefix: nat,
                         forwarded: seq<Message>, timestamp: int, previous: Option<Sent>)
      modifies this`outcomes, this`reach
      ensures var turn := TurnRewrites(setup, original, stablePrefix, forwarded, timestamp, previous);
              && outcomes.stable == old(outcomes.stable) + turn.outcomes.stable
              && outcomes.busting == old(outcomes.busting) + turn.outcomes.busting
              && outcomes.nonEligible == old(outcomes.nonEligible) + turn.outcomes.nonEligible
              && reach.all == old(reach.all) + turn.reach.all
              && reach.retroactive == old(reach.retroactive) + turn.reach.retroactive
              && reach.latestOnly == old(reach.latestOnly) + turn.reach.latestOnly
    {
      var (rewrite, retroactive) := RewriteScope(original, forwarded, stablePrefix);
      if rewrite {
        reach := reach.(all := reach.all + 1);
        if retroactive {
          reach := reach.(retroactive := reach.retroactive + 1);
        } else {
          reach := reach.(latestOnly := reach.latestOnly + 1);
        }
        if WithinTtl(setup, timestamp, previous) && previous.value.forwarded != [] {
          if previous.value.forwarded <= forwarded {
            outcomes := outcomes.(stable := outcomes.stable + 1);
          } else {
            outcomes := outcomes.(busting := outcomes.busting + 1);
          }
        } else {
          outcomes := outcomes.(nonEligible := outcomes.nonEligible + 1);
        }
      }
    }
  }

  /** Splits a conversation into the part already forwarded, as forwarded, and the part that is new. */
  function ExtractCacheStableDelta(current: seq<Message>, previousOriginal: Option<seq<Message>>,
                                   previousForwarded: Option<seq<Message>>): Option<(seq<Message>, seq<Message>)>
  {
    if previousOriginal.None? || previousForwarded.None? then None
    else if |current| < |previousOriginal.value| then None
    else if current[..|previousOriginal.value|] != previousOriginal.value then None
    else Some((previousForwarded.value, current[|previousOriginal.value|..]))
  }

  /** What the mode sends, given the conversation and the two contexts kept from the last turn. */
  function ApplyMode(proxy: Proxy, mode: Mode, history: seq<Turn>, messages: seq<Message>,
                     previousOriginal: Option<seq<Message>>, previousForwarded: Option<seq<Message>>): seq<Message>
  {
    match mode
    case Baseline => messages
    case TokenMode => proxy.forwardToken(history)
    case CacheMode =>
      match ExtractCacheStableDelta(messages, previousOriginal, previousForwarded)
      case Some((stable, delta)) => if delta == [] then stable else stable + proxy.compress(history, delta)
      case None => messages
  }

  /** What the loops carry from one turn to the next. */
  datatype Carried = Carried(
    conversation: seq<Message>,
    conversationTokens: nat,
    previousOriginal: Option<seq<Message>>,
    previousForwarded: Option<seq<Message>>
  )

  const NOTHING_CARRIED := Carried([], 0, None, None)

  ghost predicate CarriedInto(setup: Setup, proxy: Proxy, mode: Mode, turns: seq<Turn>, i: nat, carried: Carried)
    requires i <= |turns|
  {
    && carried.conversation == Context(turns, i)
    && carried.conversationTokens == ContextTokens(setup, turns, i)
    && if i == 0 then carried.previousOriginal.None? && carried.previousForwarded.None?
       else
         && carried.previousOriginal == Some(Context(turns, i))
         && carried.previousForwarded == Some(Forwarded(proxy, mode, turns, i - 1) + [turns[i - 1].assistant])
  }

  /** With the loop's contexts the delta always splits off exactly the new input, so the
      mode sends what the direct definition says. */
  lemma {:induction false} ApplyModeSends(setup: Setup, proxy: Proxy, mode: Mode, turns: seq<Turn>, i: nat,
                                          carried: Carried)
    requires i < |turns| && CarriedInto(setup, proxy, mode, turns, i, carried)
    ensures ApplyMode(proxy, mode, turns[..i + 1], Conversation(turns, i), carried.previousOriginal,
                      carried.previousForwarded)
         == Forwarded(proxy, mode, turns, i)
  {
    if mode.CacheMode? && i > 0 {
      var n := |Context(turns, i)|;
      assert Conversation(turns, i)[..n] == Context(turns, i);
      assert Conversation(turns, i)[n..] == turns[i].input;
    }
  }

  /** The part of an iteration that every replay loop shares: extend the conversation, let the mode
      forward it, then append the answer. */
  method NextRequest(setup: Setup, proxy: Proxy, mode: Mode, turns: seq<Turn>, i: nat, carried: Carried)
    returns (request: Request, carried': Carried)
    requires i < |turns| && CarriedInto(setup, proxy, mode, turns, i, carried)
    ensures request == RequestAt(setup, proxy, mode, turns, i)
    ensures CarriedInto(setup, proxy, mode, turns, i + 1, carried')
  {
    var turn := turns[i];
    var tokenizer := TokenizerOf(setup, turn.model);
    var conversation := carried.conversation + turn.input;
    var rawInput := carried.conversationTokens + Tokens(tokenizer, turn.input);
    var forwarded := ApplyMode(proxy, mode, turns[..i + 1], conversation, carried.previousOriginal,
                               carried.previousForwarded);
    ApplyModeSends(setup, proxy, mode, turns, i, carried);
    request := Request(turn, rawInput, conversation, |carried.conversation|, forwarded);

    conversation := conversation + [turn.assistant];
    carried' := Carried(conversation, rawInput + Count(tokenizer, turn.assistant),
                        Some(conversation), Some(forwarded + [turn.assistant]));
  }

  /** Turn `i - 1` is waiting to be scored and `previous` is the request before it. */
  ghost predicate Lagging(requests: seq<Request>, i: nat, pending: Option<Request>, previous: Option<Sent>)
    requires i <= |requests|
  {
    match pending
    case None => i == 0 && previous.None?
    case Some(request) => i > 0 && request == requests[i - 1] && previous == SentBefore(requests, i - 1)
  }

  /** What each request should contribute to a summary. */
  datatype Scores = Scores(
    tokens: seq<TokenTotals>, costs: seq<CostTotals>, cache: seq<CacheTurns>, rewrites: seq<RewriteTurns>)

  ghost predicate Describes(scores: Scores, setup: Setup, requests: seq<Request>) {
    match scores
    case Scores(tokens, costs, cache, rewrites) =>
      && |tokens| == |costs| == |cache| == |rewrites| == |requests|
      && (forall i {:trigger tokens[i]} :: 0 <= i < |requests| ==> tokens[i] == TokensAt(setup, requests, i))
      && (forall i {:trigger costs[i]} :: 0 <= i < |requests| ==> costs[i] == CostsAt(setup, requests, i))
      && (forall i {:trigger cache[i]} :: 0 <= i < |requests| ==> cache[i] == CacheAt(setup, requests, i))
      && (forall i {:trigger rewrites[i]} :: 0 <= i < |requests| ==> rewrites[i] == RewritesAt(setup, requests, i))
  }

  lemma ScoresExist(setup: Setup, requests: seq<Request>) returns (scores: Scores)
    ensures Describes(scores, setup, requests)
    ensures Summarize(setup, requests) == Accumulated(scores, |requests|, |requests|)
  {
    scores := Scores(TokenScores(setup, requests), CostScores(setup, requests),
                     CacheScores(setup, requests), RewriteScores(setup, requests));
  }

  /** The counters after `classified` requests have been classified and `scored` of them scored. */
  ghost function Accumulated(scores: Scores, classified: nat, scored: nat): Totals {
    match scores
    case Scores(tokens, costs, cache, rewrites) =>
      if scored <= classified <= |rewrites| && |tokens| == |costs| == |cache| == |rewrites| then
        Totals(1, scored, TokenTotals(SumVolume(tokens, scored), SumSplit(tokens, scored)), SumCosts(costs, scored),
               SumCache(cache, scored), RewriteTurns(SumOutcomes(rewrites, classified), SumReach(rewrites, classified)))
      else NothingScored(0)
  }

  /** The scores that describe a request are those of its window. */
  lemma ScoreOf(scores: Scores, setup: Setup, requests: seq<Request>, i: nat)
    requires Describes(scores, setup, requests) && i < |requests|
    ensures |scores.tokens| == |scores.costs| == |scores.cache| == |scores.rewrites| == |requests|
    ensures scores.tokens[i] == TokensAt(setup, requests, i)
    ensures scores.costs[i] == CostsAt(setup, requests, i)
    ensures scores.cache[i] == CacheAt(setup, requests, i)
    ensures scores.rewrites[i] == RewritesAt(setup, requests, i)
  {
  }

  /** One more classification is one more summand. */
  lemma ClassificationAdds(before: Totals, after: Totals, scores: Scores, i: nat, scored: nat)
    requires |scores.tokens| == |scores.costs| == |scores.cache| == |scores.rewrites|
    requires scored <= i < |scores.rewrites| && before == Accumulated(scores, i, scored)
    requires after == before.(rewrites := after.rewrites)
    requires var was, now, turn := before.rewrites.outcomes, after.rewrites.outcomes, scores.rewrites[i].outcomes;
             && now.stable == was.stable + turn.stable
             && now.busting == was.busting + turn.busting
             && now.nonEligible == was.nonEligible + turn.nonEligible
    requires var was, now, turn := before.rewrites.reach, after.rewrites.reach, scores.rewrites[i].reach;
             && now.all == was.all + turn.all
             && now.retroactive == was.retroactive + turn.retroactive
             && now.latestOnly == was.latestOnly + turn.latestOnly
    ensures after == Accumulated(scores, i + 1, scored)
  {
  }

  /** Request `i` is compared with the one sent before it. */
  method Classify(summary: ModeSummary, setup: Setup, request: Request, prior: Option<Sent>,
                  ghost requests: seq<Request>, ghost scores: Scores, ghost i: nat, ghost scored: nat)
    requires Describes(scores, setup, requests) && scored <= i < |requests|
    requires request == requests[i] && prior == SentBefore(requests, i)
    requires summary.Value() == Accumulated(scores, i, scored)
    modifies summary
    ensures summary.Value() == Accumulated(scores, i + 1, scored)
  {
    ScoreOf(scores, setup, requests, i);
    ghost var before := summary.Value();
    summary.RecordRewrite(setup, request.original, request.priorCount, request.forwarded, request.turn.timestamp,
                          prior);
    ClassificationAdds(before, summary.Value(), scores, i, scored);
  }

  /** One more score is one more summand. */
  lemma ScoreAdds(before: Totals, after: Totals, scores: Scores, classified: nat, i: nat)
    requires |scores.tokens| == |scores.costs| == |scores.cache| == |scores.rewrites|
    requires i < classified <= |scores.rewrites| && before == Accumulated(scores, classified, i)
    requires after
          == before.(requests := before.requests + 1, tokens := after.tokens, costs := after.costs,
                     cache := after.cache)
    requires var was, now, turn := before.tokens.volume, after.tokens.volume, scores.tokens[i].volume;
             now.raw == was.raw + turn.raw && now.forwarded == was.forwarded + turn.forwarded
               && now.output == was.output + turn.output
    requires var was, now, turn := before.tokens.split, after.tokens.split, scores.tokens[i].split;
             && now.cacheRead == was.cacheRead + turn.cacheRead
             && now.cacheWrite == was.cacheWrite + turn.cacheWrite
             && now.regular == was.regular + turn.regular
    requires var was, now, turn := before.costs, after.costs, scores.costs[i];
             && now.input.paid == was.input.paid + turn.input.paid
             && now.input.cacheRead == was.input.cacheRead + turn.input.cacheRead
             && now.input.cacheWrite == was.input.cacheWrite + turn.input.cacheWrite
             && now.paidOutput == was.paidOutput + turn.paidOutput
             && now.total == was.total + turn.total
    requires var was, now, turn := before.cache, after.cache, scores.cache[i];
             && now.eligible == was.eligible + turn.eligible
             && now.busts == was.busts + turn.busts
             && now.ttlExpiries == was.ttlExpiries + turn.ttlExpiries
    ensures after == Accumulated(scores, classified, i + 1)
  {
  }

  /** Request `i` is scored, now that its successor is known. */
  method Score(summary: ModeSummary, setup: Setup, request: Request, previous: Option<Sent>, next: Option<Sent>,
               ghost requests: seq<Request>, ghost scores: Scores, ghost i: nat, ghost classified: nat)
    requires Describes(scores, setup, requests) && i < classified <= |requests|
    requires request == requests[i] && previous == SentBefore(requests, i) && next == SentAfter(requests, i)
    requires summary.Value() == Accumulated(scores, classified, i)
    modifies summary
    ensures summary.Value() == Accumulated(scores, classified, i + 1)
  {
    ScoreOf(scores, setup, requests, i);
    ghost var before := summary.Value();
    summary.ApplyTurnMetrics(setup, request.turn, request.rawInput, request.forwarded, previous, next);
    ScoreAdds(before, summary.Value(), scores, classified, i);
  }

  /** When request `i` arrives the waiting one is the request before it. */
  lemma WaitingIsBefore(requests: seq<Request>, i: nat, pending: Option<Request>, previous: Option<Sent>)
    requires i < |requests| && Lagging(requests, i, pending, previous)
    ensures SentBefore(requests, i) == if pending.Some? then Some(pending.value.AsSent()) else previous
    ensures Lagging(requests, i + 1, Some(requests[i]), SentBefore(requests, i))
    ensures pending.Some? <==> i > 0
    ensures i > 0 ==>
      && pending.value == requests[i - 1] && previous == SentBefore(requests, i - 1)
      && SentAfter(requests, i - 1) == Some(requests[i].AsSent())
  {
  }

  /** Request `i` arrives: it is classified against the waiting request, which is scored in turn,
      now that its successor is known. Returns what `previous` becomes. */
  method Arrive(summary: ModeSummary, setup: Setup, request: Request, pending: Option<Request>, previous: Option<Sent>,
                ghost requests: seq<Request>, ghost scores: Scores, ghost i: nat)
    returns (previous': Option<Sent>)
    requires Describes(scores, setup, requests)
    requires i < |requests| && request == requests[i]
    requires Lagging(requests, i, pending, previous)
    requires summary.Value() == Accumulated(scores, i, if i == 0 then 0 else i - 1)
    modifies summary
    ensures Lagging(requests, i + 1, Some(request), previous')
    ensures summary.Value() == Accumulated(scores, i + 1, i)
  {
    WaitingIsBefore(requests, i, pending, previous);
    previous' := if pending.Some? then Some(pending.value.AsSent()) else previous;
    Classify(summary, setup, request, previous', requests, scores, i, if i == 0 then 0 else i - 1);
    if pending.Some? {
      Score(summary, setup, pending.value, previous, Some(request.AsSent()), requests, scores, i - 1, i + 1);
    }
  }

  /** The session is over: the waiting request is scored with nothing after it. */
  method Finish(summary: ModeSummary, setup: Setup, pending: Option<Request>, previous: Option<Sent>,
                ghost requests: seq<Request>, ghost scores: Scores)
    requires Describes(scores, setup, requests)
    requires Lagging(requests, |requests|, pending, previous)
    requires summary.Value() == Accumulated(scores, |requests|, if requests == [] then 0 else |requests| - 1)
    modifies summary
    ensures summary.Value() == Accumulated(scores, |requests|, |requests|)
  {
    if pending.Some? {
      Score(summary, setup, pending.value, previous, None, requests, scores, |requests| - 1, |requests|);
    }
  }

  /** A session worked out in advance: its requests and what each should contribute. */
  datatype Script = Script(requests: seq<Request>, scores: Scores)

  ghost predicate Foretells(script: Script, setup: Setup, proxy: Proxy, mode: Mode, turns: seq<Turn>) {
    match script
    case Script(requests, scores) =>
      && |requests| == |turns|
      && (forall i {:trigger requests[i]} :: 0 <= i < |turns| ==>
          requests[i] == RequestAt(setup, proxy, mode, turns, i))
      && Describes(scores, setup, requests)
  }

  /** The loop's state. */
  datatype LoopState = LoopState(carried: Carried, pending: Option<Request>, previous: Option<Sent>)

  const START := LoopState(NOTHING_CARRIED, None, None)

  /** The state when turn `i` begins. */
  ghost predicate StateAt(script: Script, setup: Setup, proxy: Proxy, mode: Mode, turns: seq<Turn>, i: nat,
                          state: LoopState)
    requires i <= |turns|
  {
    match state
    case LoopState(carried, pending, previous) =>
      && CarriedInto(setup, proxy, mode, turns, i, carried)
      && i <= |script.requests| && Lagging(script.requests, i, pending, previous)
  }

  /** The summary when turn `i` begins: all turns before it are classified, all but the pending one scored. */
  ghost predicate SoFar(total: Totals, script: Script, i: nat) {
    match script
    case Script(_, scores) => total == Accumulated(scores, i, if i == 0 then 0 else i - 1)
  }

  lemma {:induction false} NothingReplayed(script: Script, setup: Setup, proxy: Proxy, mode: Mode, turns: seq<Turn>)
    requires Foretells(script, setup, proxy, mode, turns)
    ensures StateAt(script, setup, proxy, mode, turns, 0, START)
    ensures SoFar(NothingScored(1), script, 0)
  {
  }

  method ReplayTurn(summary: ModeSummary, setup: Setup, proxy: Proxy, mode: Mode, turns: seq<Turn>, i: nat,
                    state: LoopState, ghost script: Script)
    returns (state': LoopState)
    requires i < |turns| && Foretells(script, setup, proxy, mode, turns)
    requires StateAt(script, setup, proxy, mode, turns, i, state)
    requires SoFar(summary.Value(), script, i)
    modifies summary
    ensures StateAt(script, setup, proxy, mode, turns, i + 1, state')
    ensures SoFar(summary.Value(), script, i + 1)
  {
    var request, carried := NextRequest(setup, proxy, mode, turns, i, state.carried);
    assert request == script.requests[i];
    var previous := Arrive(summary, setup, request, state.pending, state.previous, script.requests, script.scores, i);
    state' := LoopState(carried, Some(request), previous);
  }

  method ReplayTurns(summary: ModeSummary, setup: Setup, proxy: Proxy, mode: Mode, turns: seq<Turn>,
                     ghost script: Script)
    returns (state: LoopState)
    requires Foretells(script, setup, proxy, mode, turns)
    requires SoFar(summary.Value(), script, 0) && StateAt(script, setup, proxy, mode, turns, 0, START)
    modifies summary
    ensures StateAt(script, setup, proxy, mode, turns, |turns|, state)
    ensures SoFar(summary.Value(), script, |turns|)
  {
    state := START;
    for i := 0 to |turns|
      invariant StateAt(script, setup, proxy, mode, turns, i, state)
      invariant SoFar(summary.Value(), script, i)
    {
      state := ReplayTurn(summary, setup, proxy, mode, turns, i, state, script);
    }
  }

  /** A session can be worked out in advance, and the scores of all its turns are its totals. */
  lemma ScriptExists(setup: Setup, proxy: Proxy, mode: Mode, turns: seq<Turn>) returns (script: Script)
    ensures Foretells(script, setup, proxy, mode, turns)
    ensures Accumulated(script.scores, |turns|, |turns|) == SessionTotals(setup, proxy, mode, turns)
  {
    var requests := Requests(setup, proxy, mode, turns);
    var scores := ScoresExist(setup, requests);
    script := Script(requests, scores);
  }

  /** Replays what is left after the last turn: the pending request. */
  method ReplayRest(summary: ModeSummary, setup: Setup, proxy: Proxy, mode: Mode, turns: seq<Turn>, state: LoopState,
                    ghost script: Script)
    requires Foretells(script, setup, proxy, mode, turns)
    requires StateAt(script, setup, proxy, mode, turns, |turns|, state)
    requires SoFar(summary.Value(), script, |turns|)
    modifies summary
    ensures summary.Value() == Accumulated(script.scores, |turns|, |turns|)
  {
    Finish(summary, setup, state.pending, state.previous, script.requests, script.scores);
  }

  /** Replays a session through one mode. */
  method SimulateReplay(setup: Setup, proxy: Proxy, mode: Mode, turns: seq<Turn>) returns (summary: ModeSummary)
    ensures fresh(summary)
    ensures summary.Value() == SessionTotals(setup, proxy, mode, turns)
  {
    summary := new ModeSummary(1);
    ghost var script := ScriptExists(setup, proxy, mode, turns);
    NothingReplayed(script, setup, proxy, mode, turns);
    var state := ReplayTurns(summary, setup, proxy, mode, turns, script);
    ReplayRest(summary, setup, proxy, mode, turns, state, script);
  }
}
