/** The local mode benchmark: a conversation that grows by a round per turn, and how much of each
    request the provider's cache already holds. */
module ModeBenchmark {
  import opened Messages

  // ----- The conversation -----

  /** What is said in each round. */
  datatype Dialogue = Dialogue(ask: nat -> Message, toolResult: nat -> Message, acknowledge: nat -> Message)

  function Round(dialogue: Dialogue, t: nat): seq<Message> {
    [dialogue.ask(t), dialogue.toolResult(t), dialogue.acknowledge(t)]
  }

  /** The completed rounds before turn `t`. */
  function Rounds(dialogue: Dialogue, t: nat): seq<Message> {
    if t <= 1 then [] else Rounds(dialogue, t - 1) + Round(dialogue, t - 1)
  }

  /** The request of turn `t`: all completed rounds, and a round still without its answer. */
  function Conversation(dialogue: Dialogue, t: nat): seq<Message> {
    Rounds(dialogue, t) + [dialogue.ask(t), dialogue.toolResult(t)]
  }

  /** `_build_conversation` */
  method BuildConversation(dialogue: Dialogue, turn: nat) returns (messages: seq<Message>)
    ensures messages == Conversation(dialogue, turn)
  {
    messages := [];
    var t := 1;
    while t < turn
      invariant t <= turn || (turn == 0 && t == 1)
      invariant messages == Rounds(dialogue, t)
    {
      messages := messages + [dialogue.ask(t), dialogue.toolResult(t), dialogue.acknowledge(t)];
      t := t + 1;
    }
    messages := messages + [dialogue.ask(turn), dialogue.toolResult(turn)];
  }

  /** Each request strictly extends the one before it, whatever is said. */
  lemma ConversationGrows(dialogue: Dialogue, t: nat)
    requires t > 0
    ensures Conversation(dialogue, t) < Conversation(dialogue, t + 1)
  {
    assert Conversation(dialogue, t + 1)
        == Conversation(dialogue, t) + [dialogue.acknowledge(t), dialogue.ask(t + 1), dialogue.toolResult(t + 1)];
  }

  // ----- One turn -----

  datatype Sizes = Sizes(original: nat, sent: nat, saved: nat)

  datatype CacheUse = CacheUse(read: nat, write: nat, uncached: nat)

  /** What a mode sends; the baseline sends the conversation itself and claims no writes or savings. */
  datatype Sender = Baseline | Sender(forward: nat -> seq<Message>)

  function Sent(dialogue: Dialogue, sender: Sender, t: nat): seq<Message> {
    match sender
    case Baseline => Conversation(dialogue, t)
    case Sender(forward) => forward(t)
  }

  /** What was sent before turn `t`. */
  function SentBefore(dialogue: Dialogue, sender: Sender, t: nat): seq<Message> {
    if t <= 1 then [] else Sent(dialogue, sender, t - 1)
  }

  function Excess(a: nat, b: nat): nat {
    if a < b then 0 else a - b
  }

  function SizesAt(dialogue: Dialogue, tokenizer: Tokenizer, sender: Sender, t: nat): Sizes {
    var before := ListTokens(tokenizer, Conversation(dialogue, t));
    var after := ListTokens(tokenizer, Sent(dialogue, sender, t));
    Sizes(before, after, if sender.Baseline? then 0 else Excess(before, after))
  }

  function CacheAt(dialogue: Dialogue, tokenizer: Tokenizer, sender: Sender, t: nat): CacheUse {
    var read := SharedTokens(tokenizer, SentBefore(dialogue, sender, t), Sent(dialogue, sender, t));
    var uncached := Excess(ListTokens(tokenizer, Sent(dialogue, sender, t)), read);
    CacheUse(read, if sender.Baseline? then 0 else uncached, uncached)
  }

  // Turn `i + 1` is at index `i`.

  function SizeRows(dialogue: Dialogue, tokenizer: Tokenizer, sender: Sender, turns: nat): (rows: seq<Sizes>)
    ensures |rows| == turns
    ensures forall i {:trigger rows[i]} :: 0 <= i < turns ==> rows[i] == SizesAt(dialogue, tokenizer, sender, i + 1)
  {
    seq(turns, i requires 0 <= i < turns => SizesAt(dialogue, tokenizer, sender, i + 1))
  }

  function CacheRows(dialogue: Dialogue, tokenizer: Tokenizer, sender: Sender, turns: nat): (rows: seq<CacheUse>)
    ensures |rows| == turns
    ensures forall i {:trigger rows[i]} :: 0 <= i < turns ==> rows[i] == CacheAt(dialogue, tokenizer, sender, i + 1)
  {
    seq(turns, i requires 0 <= i < turns => CacheAt(dialogue, tokenizer, sender, i + 1))
  }

  function SumSizes(rows: seq<Sizes>, k: nat): Sizes
    requires k <= |rows|
  {
    if k == 0 then Sizes(0, 0, 0)
    else
      var s, r := SumSizes(rows, k - 1), rows[k - 1];
      Sizes(s.original + r.original, s.sent + r.sent, s.saved + r.saved)
  }

  function SumCache(rows: seq<CacheUse>, k: nat): CacheUse
    requires k <= |rows|
  {
    if k == 0 then CacheUse(0, 0, 0)
    else
      var s, r := SumCache(rows, k - 1), rows[k - 1];
      CacheUse(s.read + r.read, s.write + r.write, s.uncached + r.uncached)
  }

  function TotalSizes(dialogue: Dialogue, tokenizer: Tokenizer, sender: Sender, turns: nat): Sizes {
    SumSizes(SizeRows(dialogue, tokenizer, sender, turns), turns)
  }

  function TotalCache(dialogue: Dialogue, tokenizer: Tokenizer, sender: Sender, turns: nat): CacheUse {
    SumCache(CacheRows(dialogue, tokenizer, sender, turns), turns)
  }

  // ----- The benchmark -----

  class ModeBenchmarkResult {
    var sizes: Sizes
    var cache: CacheUse

    constructor ()
      ensures sizes == Sizes(0, 0, 0) && cache == CacheUse(0, 0, 0)
    {
      sizes, cache := Sizes(0, 0, 0), CacheUse(0, 0, 0);
    }

    method AddBaselineTurn(tokenizer: Tokenizer, previous: seq<Message>, messages: seq<Message>)
      modifies this
      ensures var before := ListTokens(tokenizer, messages);
              && sizes.original == old(sizes.original) + before
              && sizes.sent == old(sizes.sent) + before
              && sizes.saved == old(sizes.saved)
      ensures var read := SharedTokens(tokenizer, previous, messages);
              && cache.read == old(cache.read) + read
              && cache.write == old(cache.write)
              && cache.uncached == old(cache.uncached) + Excess(ListTokens(tokenizer, messages), read)
    {
      var before := ListTokens(tokenizer, messages);
      var common := CommonPrefixTokens(previous, messages, tokenizer);
      sizes := Sizes(sizes.original + before, sizes.sent + before, sizes.saved);
      cache := CacheUse(cache.read + common, cache.write, cache.uncached + Excess(before, common));
    }

    method AddTurn(tokenizer: Tokenizer, messages: seq<Message>, previous: seq<Message>, forwarded: seq<Message>)
      modifies this
      ensures var before, after := ListTokens(tokenizer, messages), ListTokens(tokenizer, forwarded);
              && sizes.original == old(sizes.original) + before
              && sizes.sent == old(sizes.sent) + after
              && sizes.saved == old(sizes.saved) + Excess(before, after)
      ensures var read := SharedTokens(tokenizer, previous, forwarded);
              var uncached := Excess(ListTokens(tokenizer, forwarded), read);
              && cache.read == old(cache.read) + read
              && cache.write == old(cache.write) + uncached
              && cache.uncached == old(cache.uncached) + uncached
    {
      var before := ListTokens(tokenizer, messages);
      var after := ListTokens(tokenizer, forwarded);
      var common := CommonPrefixTokens(previous, forwarded, tokenizer);
      var uncached := Excess(after, common);
      sizes := Sizes(sizes.original + before, sizes.sent + after, sizes.saved + Excess(before, after));
      cache := CacheUse(cache.read + common, cache.write + uncached, cache.uncached + uncached);
    }
  }

  ghost predicate RowsOf(sizes: seq<Sizes>, uses: seq<CacheUse>, dialogue: Dialogue, tokenizer: Tokenizer,
                         sender: Sender) {
    && |sizes| == |uses|
    && (forall i {:trigger sizes[i]} :: 0 <= i < |sizes| ==> sizes[i] == SizesAt(dialogue, tokenizer, sender, i + 1))
    && (forall i {:trigger uses[i]} :: 0 <= i < |uses| ==> uses[i] == CacheAt(dialogue, tokenizer, sender, i + 1))
  }

  /** The first `k` rows have been added up. */
  ghost predicate Accumulated(size: Sizes, use: CacheUse, sizes: seq<Sizes>, uses: seq<CacheUse>, k: nat) {
    k <= |sizes| == |uses| && size == SumSizes(sizes, k) && use == SumCache(uses, k)
  }

  lemma AccumulateRow(size: Sizes, use: CacheUse, sizes: seq<Sizes>, uses: seq<CacheUse>, k: nat, size': Sizes,
                      use': CacheUse)
    requires k < |sizes| && Accumulated(size, use, sizes, uses, k)
    requires size'.original == size.original + sizes[k].original
    requires size'.sent == size.sent + sizes[k].sent && size'.saved == size.saved + sizes[k].saved
    requires use'.read == use.read + uses[k].read
    requires use'.write == use.write + uses[k].write && use'.uncached == use.uncached + uses[k].uncached
    ensures Accumulated(size', use', sizes, uses, k + 1)
  {
  }

  /** Turn `t` is sent and measured against what was sent before it. */
  method SendTurn(result: ModeBenchmarkResult, dialogue: Dialogue, tokenizer: Tokenizer, sender: Sender, t: nat,
                  previous: seq<Message>, ghost size: Sizes, ghost use: CacheUse)
    returns (previous': seq<Message>)
    requires t > 0 && previous == SentBefore(dialogue, sender, t)
    requires size == SizesAt(dialogue, tokenizer, sender, t) && use == CacheAt(dialogue, tokenizer, sender, t)
    modifies result
    ensures previous' == SentBefore(dialogue, sender, t + 1)
    ensures && result.sizes.original == old(result.sizes.original) + size.original
            && result.sizes.sent == old(result.sizes.sent) + size.sent
            && result.sizes.saved == old(result.sizes.saved) + size.saved
    ensures && result.cache.read == old(result.cache.read) + use.read
            && result.cache.write == old(result.cache.write) + use.write
            && result.cache.uncached == old(result.cache.uncached) + use.uncached
  {
    var messages := BuildConversation(dialogue, t);
    match sender
    case Baseline =>
      result.AddBaselineTurn(tokenizer, previous, messages);
      previous' := messages;
    case Sender(forward) =>
      var forwarded := forward(t);
      result.AddTurn(tokenizer, messages, previous, forwarded);
      previous' := forwarded;
  }

  lemma RowsAt(sizes: seq<Sizes>, uses: seq<CacheUse>, dialogue: Dialogue, tokenizer: Tokenizer, sender: Sender, k: nat)
    requires RowsOf(sizes, uses, dialogue, tokenizer, sender) && k < |sizes|
    ensures k < |uses| && sizes[k] == SizesAt(dialogue, tokenizer, sender, k + 1)
            && uses[k] == CacheAt(dialogue, tokenizer, sender, k + 1)
  {
  }

  method MeasureTurn(result: ModeBenchmarkResult, dialogue: Dialogue, tokenizer: Tokenizer, sender: Sender, k: nat,
                     previous: seq<Message>, ghost sizes: seq<Sizes>, ghost uses: seq<CacheUse>)
    returns (previous': seq<Message>)
    requires k < |sizes| && RowsOf(sizes, uses, dialogue, tokenizer, sender)
    requires previous == SentBefore(dialogue, sender, k + 1)
    requires Accumulated(result.sizes, result.cache, sizes, uses, k)
    modifies result
    ensures previous' == SentBefore(dialogue, sender, k + 2)
    ensures Accumulated(result.sizes, result.cache, sizes, uses, k + 1)
  {
    ghost var size, use := result.sizes, result.cache;
    RowsAt(sizes, uses, dialogue, tokenizer, sender, k);
    previous' := SendTurn(result, dialogue, tokenizer, sender, k + 1, previous, sizes[k], uses[k]);
    AccumulateRow(size, use, sizes, uses, k, result.sizes, result.cache);
  }

  method MeasureTurns(result: ModeBenchmarkResult, dialogue: Dialogue, tokenizer: Tokenizer, sender: Sender, turns: nat,
                      ghost sizes: seq<Sizes>, ghost uses: seq<CacheUse>)
    requires |sizes| == turns && RowsOf(sizes, uses, dialogue, tokenizer, sender)
    requires Accumulated(result.sizes, result.cache, sizes, uses, 0)
    modifies result
    ensures Accumulated(result.sizes, result.cache, sizes, uses, turns)
  {
    var previous := [];
    for t := 0 to turns
      invariant previous == SentBefore(dialogue, sender, t + 1)
      invariant Accumulated(result.sizes, result.cache, sizes, uses, t)
    {
      previous := MeasureTurn(result, dialogue, tokenizer, sender, t, previous, sizes, uses);
    }
  }

  /** `_simulate_mode` */
  method SimulateMode(dialogue: Dialogue, tokenizer: Tokenizer, sender: Sender, turns: nat)
    returns (result: ModeBenchmarkResult)
    ensures fresh(result)
    ensures result.sizes == TotalSizes(dialogue, tokenizer, sender, turns)
    ensures result.cache == TotalCache(dialogue, tokenizer, sender, turns)
  {
    result := new ModeBenchmarkResult();
    ghost var sizes, uses := SizeRows(dialogue, tokenizer, sender, turns),
        CacheRows(dialogue, tokenizer, sender, turns);
    assert Accumulated(result.sizes, result.cache, sizes, uses, 0);
    MeasureTurns(result, dialogue, tokenizer, sender, turns, sizes, uses);
  }

  // ----- Token accounts -----

  /** What is sent is read or not, and what is not read is written, except in the baseline. */
  predicate Accounted(size: Sizes, use: CacheUse, baseline: bool) {
    use.read + use.uncached == size.sent && use.write == if baseline then 0 else use.uncached
  }

  lemma AccountedAt(dialogue: Dialogue, tokenizer: Tokenizer, sender: Sender, t: nat)
    ensures Accounted(SizesAt(dialogue, tokenizer, sender, t), CacheAt(dialogue, tokenizer, sender, t),
                      sender.Baseline?)
  {
    SharedTokensBounds(tokenizer, SentBefore(dialogue, sender, t), Sent(dialogue, sender, t));
  }

  lemma {:induction false} AccountsAddUp(sizes: seq<Sizes>, uses: seq<CacheUse>, baseline: bool, k: nat)
    requires k <= |sizes| == |uses|
    requires forall i :: 0 <= i < |uses| ==> Accounted(sizes[i], uses[i], baseline)
    ensures Accounted(SumSizes(sizes, k), SumCache(uses, k), baseline)
  {
    if k > 0 {
      AccountsAddUp(sizes, uses, baseline, k - 1);
      assert Accounted(sizes[k - 1], uses[k - 1], baseline);
    }
  }

  lemma RowAccounted(sizes: seq<Sizes>, uses: seq<CacheUse>, dialogue: Dialogue, tokenizer: Tokenizer, sender: Sender,
                     i: nat)
    requires RowsOf(sizes, uses, dialogue, tokenizer, sender) && i < |sizes|
    ensures Accounted(sizes[i], uses[i], sender.Baseline?)
  {
    RowsAt(sizes, uses, dialogue, tokenizer, sender, i);
    AccountedAt(dialogue, tokenizer, sender, i + 1);
  }

  lemma {:induction false} RowsAccounted(sizes: seq<Sizes>, uses: seq<CacheUse>, dialogue: Dialogue,
                                         tokenizer: Tokenizer, sender: Sender)
    requires |sizes| == |uses| && RowsOf(sizes, uses, dialogue, tokenizer, sender)
    ensures Accounted(SumSizes(sizes, |sizes|), SumCache(uses, |uses|), sender.Baseline?)
  {
    forall i | 0 <= i < |uses|
      ensures Accounted(sizes[i], uses[i], sender.Baseline?)
    {
      RowAccounted(sizes, uses, dialogue, tokenizer, sender, i);
    }
    AccountsAddUp(sizes, uses, sender.Baseline?, |uses|);
  }

  /** Every token sent was either read from the cache or not, in every mode; only the baseline claims no writes. */
  lemma {:induction false} ReadsAndUncachedAreSent(dialogue: Dialogue, tokenizer: Tokenizer, sender: Sender, turns: nat)
    ensures Accounted(TotalSizes(dialogue, tokenizer, sender, turns), TotalCache(dialogue, tokenizer, sender, turns),
                      sender.Baseline?)
  {
    RowsAccounted(SizeRows(dialogue, tokenizer, sender, turns), CacheRows(dialogue, tokenizer, sender, turns),
                  dialogue, tokenizer, sender);
  }

  /** The size of the request of turn `t`; nothing before the first turn. */
  function RequestTokens(dialogue: Dialogue, tokenizer: Tokenizer, t: nat): nat {
    if t == 0 then 0 else Tokens(tokenizer, Conversation(dialogue, t))
  }

  lemma BaselineUncachedAt(dialogue: Dialogue, tokenizer: Tokenizer, t: nat)
    requires t > 0
    ensures CacheAt(dialogue, tokenizer, Baseline, t).uncached
         == RequestTokens(dialogue, tokenizer, t) - RequestTokens(dialogue, tokenizer, t - 1) + tokenizer.replyOverhead
  {
    var previous, current := SentBefore(dialogue, Baseline, t), Conversation(dialogue, t);
    if t > 1 {
      ConversationGrows(dialogue, t - 1);
    }
    SharedTokensExtension(tokenizer, previous, current);
    SharedTokensBounds(tokenizer, previous, current);
  }

  function RequestSizes(dialogue: Dialogue, tokenizer: Tokenizer, turns: nat): (sizes: seq<nat>)
    ensures |sizes| == turns + 1
    ensures forall t {:trigger sizes[t]} :: 0 <= t <= turns ==> sizes[t] == RequestTokens(dialogue, tokenizer, t)
  {
    seq(turns + 1, t requires 0 <= t <= turns => RequestTokens(dialogue, tokenizer, t))
  }

  lemma {:induction false} UncachedTelescopes(uses: seq<CacheUse>, sizes: seq<nat>, overhead: nat, k: nat)
    requires k <= |uses| == |sizes| - 1
    requires forall i {:trigger uses[i]} :: 0 <= i < |uses| ==> uses[i].uncached == sizes[i + 1] - sizes[i] + overhead
    ensures SumCache(uses, k).uncached == sizes[k] - sizes[0] + k * overhead
  {
    if k > 0 {
      UncachedTelescopes(uses, sizes, overhead, k - 1);
      assert k * overhead == (k - 1) * overhead + overhead;
    }
  }

  /** In the baseline each message is paid for once: the uncached tokens of a run are those of the
      final conversation, and the reply overhead of each turn. */
  lemma {:induction false} BaselineUncachedTelescopes(dialogue: Dialogue, tokenizer: Tokenizer, turns: nat)
    ensures TotalCache(dialogue, tokenizer, Baseline, turns).uncached
         == (if turns == 0 then 0 else Tokens(tokenizer, Conversation(dialogue, turns)))
           + turns * tokenizer.replyOverhead
  {
    var uses, sizes := CacheRows(dialogue, tokenizer, Baseline, turns), RequestSizes(dialogue, tokenizer, turns);
    forall i {:trigger uses[i]} | 0 <= i < turns
      ensures uses[i].uncached == sizes[i + 1] - sizes[i] + tokenizer.replyOverhead
    {
      BaselineUncachedAt(dialogue, tokenizer, i + 1);
    }
    UncachedTelescopes(uses, sizes, tokenizer.replyOverhead, turns);
  }

  // ----- Percentages -----

  function CompressionPct(sizes: Sizes): real {
    if sizes.original == 0 then 0.0 else sizes.saved as real / sizes.original as real * 100.0
  }

  function CacheHitPct(cache: CacheUse): real {
    var total := cache.read + cache.write + cache.uncached;
    if total == 0 then 0.0 else cache.read as real / total as real * 100.0
  }

  /** No turn got larger by being forwarded. */
  ghost predicate NeverLarger(rows: seq<Sizes>, k: nat)
    requires k <= |rows|
  {
    forall i :: 0 <= i < k ==> rows[i].sent <= rows[i].original
  }

  lemma {:induction false} SavingsAddUp(rows: seq<Sizes>, k: nat)
    requires k <= |rows| && forall i :: 0 <= i < |rows| ==> rows[i].saved == Excess(rows[i].original, rows[i].sent)
    ensures var s := SumSizes(rows, k);
            s.saved <= s.original && s.original - s.sent <= s.saved
              && (s.saved == s.original - s.sent <==> NeverLarger(rows, k))
  {
    if k > 0 {
      SavingsAddUp(rows, k - 1);
      assert NeverLarger(rows, k) <==> NeverLarger(rows, k - 1) && rows[k - 1].sent <= rows[k - 1].original;
    }
  }

  /** The savings are the difference between the conversation and what was sent exactly when no turn
      got larger: a turn that did is not charged against them. */
  lemma {:induction false} SavedIsTheDifferenceExactlyWhen(dialogue: Dialogue, tokenizer: Tokenizer, sender: Sender,
                                                           turns: nat)
    requires sender.Sender?
    ensures var s := TotalSizes(dialogue, tokenizer, sender, turns);
            && s.saved <= s.original
            && s.original - s.sent <= s.saved
            && (s.saved == s.original - s.sent <==>
                forall t :: 0 < t <= turns ==>
                  SizesAt(dialogue, tokenizer, sender, t).sent <= SizesAt(dialogue, tokenizer, sender, t).original)
  {
    var rows := SizeRows(dialogue, tokenizer, sender, turns);
    forall i | 0 <= i < turns
      ensures rows[i].saved == Excess(rows[i].original, rows[i].sent)
    {
      assert rows[i] == SizesAt(dialogue, tokenizer, sender, i + 1);
    }
    SavingsAddUp(rows, turns);
    if NeverLarger(rows, turns) {
      forall t | 0 < t <= turns
        ensures SizesAt(dialogue, tokenizer, sender, t).sent <= SizesAt(dialogue, tokenizer, sender, t).original
      {
        assert rows[t - 1].sent <= rows[t - 1].original;
      }
    }
  }

  lemma HitRatio(read: nat, uncached: nat)
    requires read + uncached > 0
    ensures read as real / (read + 2 * uncached) as real <= read as real / (read + uncached) as real
    ensures read as real / (read + 2 * uncached) as real == read as real / (read + uncached) as real
       <==> read == 0 || uncached == 0
  {
    var r, u := read as real, uncached as real;
    var small, large := r + u, r + 2.0 * u;
    assert (read + uncached) as real == small && (read + 2 * uncached) as real == large;
    var x, y := r / large, r / small;
    assert x * large == r && y * small == r;
    CompareQuotients(x, y, small, u);
    SignOfProduct(u, x);
    SignOfProduct(x, large);
  }

  lemma SignOfProduct(a: real, b: real)
    requires b >= 0.0
    ensures b > 0.0 ==> (a * b >= 0.0 <==> a >= 0.0) && (a * b == 0.0 <==> a == 0.0)
    ensures b == 0.0 ==> a * b == 0.0
  {
    if a > 0.0 && b > 0.0 {
      assert a * b > 0.0;
    } else if a < 0.0 && b > 0.0 {
      assert a * b < 0.0;
    }
  }

  /** The quotients of one number by `small + u` and by `small`. */
  lemma CompareQuotients(x: real, y: real, small: real, u: real)
    requires x * (small + u) == y * small && small > 0.0 && x >= 0.0 && u >= 0.0
    ensures x <= y && (x == y <==> x * u == 0.0)
  {
    var gap, more := (y - x) * small, x * u;
    assert gap == y * small - x * small;
    assert gap == more;
    SignOfProduct(y - x, small);
    SignOfProduct(x, u);
  }

  lemma HitShare(cache: CacheUse, sent: nat)
    requires cache.read + cache.uncached == sent > 0 && cache.write == cache.uncached
    ensures var share := cache.read as real / sent as real * 100.0;
            CacheHitPct(cache) <= share && (CacheHitPct(cache) == share <==> cache.read == 0 || cache.uncached == 0)
  {
    HitRatio(cache.read, cache.uncached);
  }

  /** Outside the baseline uncached tokens are counted as written as well, so the reported hit rate
      is below the share of sent tokens that was read, unless nothing was read or all was. */
  lemma HitRateIsTheShareExactlyWhen(dialogue: Dialogue, tokenizer: Tokenizer, sender: Sender, turns: nat)
    requires sender.Sender? && TotalSizes(dialogue, tokenizer, sender, turns).sent > 0
    ensures var cache := TotalCache(dialogue, tokenizer, sender, turns);
            var share := cache.read as real / TotalSizes(dialogue, tokenizer, sender, turns).sent as real * 100.0;
            CacheHitPct(cache) <= share && (CacheHitPct(cache) == share <==> cache.read == 0 || cache.uncached == 0)
  {
    ReadsAndUncachedAreSent(dialogue, tokenizer, sender, turns);
    HitShare(TotalCache(dialogue, tokenizer, sender, turns), TotalSizes(dialogue, tokenizer, sender, turns).sent);
  }

  /** Likewise the reported compression is the share of the conversation that was not sent exactly when
      no turn got larger. */
  lemma CompressionIsTheShareExactlyWhen(dialogue: Dialogue, tokenizer: Tokenizer, sender: Sender, turns: nat)
    requires sender.Sender? && TotalSizes(dialogue, tokenizer, sender, turns).original > 0
    ensures var s := TotalSizes(dialogue, tokenizer, sender, turns);
            (CompressionPct(s) == (s.original - s.sent) as real / s.original as real * 100.0
             <==> forall t :: 0 < t <= turns ==>
                    SizesAt(dialogue, tokenizer, sender, t).sent <= SizesAt(dialogue, tokenizer, sender, t).original)
  {
    var s := TotalSizes(dialogue, tokenizer, sender, turns);
    SavedIsTheDifferenceExactlyWhen(dialogue, tokenizer, sender, turns);
    SameShare(s.saved, s.original - s.sent, s.original);
  }

  lemma SameShare(a: int, b: int, whole: nat)
    requires whole > 0
    ensures a as real / whole as real * 100.0 == b as real / whole as real * 100.0 <==> a == b
  {
    var w := whole as real;
    assert a as real / w * w == a as real && b as real / w * w == b as real;
  }

  // ----- Runs at which the reported figures are off -----

  /** A tokenizer that weighs every message as one token. */
  const UNIT := Tokenizer("", (model, message) => 1, 0)

  /** A mode that forwards every conversation as it is. */
  function Unchanged(dialogue: Dialogue): Sender {
    Sender((t: nat) => Conversation(dialogue, t))
  }

  lemma {:induction false} SumsGrow(uses: seq<CacheUse>, k: nat, i: nat)
    requires i < k <= |uses|
    ensures SumCache(uses, k).read >= uses[i].read && SumCache(uses, k).uncached >= uses[i].uncached
  {
    if i < k - 1 {
      SumsGrow(uses, k - 1, i);
    }
  }

  lemma FirstTurnIsUncached(dialogue: Dialogue, tokenizer: Tokenizer)
    ensures CacheAt(dialogue, tokenizer, Unchanged(dialogue), 1).uncached
         == Tokens(tokenizer, Conversation(dialogue, 1)) + tokenizer.replyOverhead
  {
    CommonPrefixGreatest([], Conversation(dialogue, 1), 0);
  }

  lemma SecondTurnReadsFirst(dialogue: Dialogue, tokenizer: Tokenizer)
    ensures CacheAt(dialogue, tokenizer, Unchanged(dialogue), 2).read == Tokens(tokenizer, Conversation(dialogue, 1))
  {
    ConversationGrows(dialogue, 1);
    SharedTokensExtension(tokenizer, Conversation(dialogue, 1), Conversation(dialogue, 2));
  }

  /** A mode that changes nothing, over two turns or more: the reported hit rate is below the share of
      what was sent that was read, whatever is said. */
  lemma {:induction false} HitRateBelowShare(dialogue: Dialogue, tokenizer: Tokenizer, turns: nat)
    requires turns >= 2 && Tokens(tokenizer, Conversation(dialogue, 1)) > 0
    ensures var cache := TotalCache(dialogue, tokenizer, Unchanged(dialogue), turns);
            var sent := TotalSizes(dialogue, tokenizer, Unchanged(dialogue), turns).sent;
            sent > 0 && CacheHitPct(cache) < cache.read as real / sent as real * 100.0
  {
    var sender := Unchanged(dialogue);
    var uses := CacheRows(dialogue, tokenizer, sender, turns);
    SumsGrow(uses, turns, 0);
    SumsGrow(uses, turns, 1);
    assert uses[0] == CacheAt(dialogue, tokenizer, sender, 1) && uses[1] == CacheAt(dialogue, tokenizer, sender, 2);
    FirstTurnIsUncached(dialogue, tokenizer);
    SecondTurnReadsFirst(dialogue, tokenizer);
    ReadsAndUncachedAreSent(dialogue, tokenizer, sender, turns);
    HitRateIsTheShareExactlyWhen(dialogue, tokenizer, sender, turns);
  }

  lemma OneMessage(message: Message)
    ensures Tokens(UNIT, [message]) == 1 && Tokens(UNIT, []) == 0
  {
    assert [message][..0] == [];
  }

  /** A mode that adds a message to every request. */
  function Longer(dialogue: Dialogue, message: Message): Sender {
    Sender((t: nat) => Conversation(dialogue, t) + [message])
  }

  /** One turn that grows by a message: nothing was saved, yet the savings do not say what was added. */
  lemma GrowthIsNotCharged(dialogue: Dialogue, message: Message)
    ensures var s := TotalSizes(dialogue, UNIT, Longer(dialogue, message), 1);
            s.saved == 0 && s.original - s.sent == -1
  {
    var sender := Longer(dialogue, message);
    OneMessage(message);
    TokensConcat(UNIT, Conversation(dialogue, 1), [message]);
    var rows := SizeRows(dialogue, UNIT, sender, 1);
    assert SumSizes(rows, 0) == Sizes(0, 0, 0);
    assert SumSizes(rows, 1) == rows[0];
  }
}
