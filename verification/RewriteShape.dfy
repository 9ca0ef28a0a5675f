/** Which turns cache mode rewrites, and how the counters see them. */
module RewriteShape {
  import opened Messages
  import opened Replay

  ghost predicate Rewritten(proxy: Proxy, turns: seq<Turn>, i: nat)
    requires i < |turns|
  {
    Forwarded(proxy, CacheMode, turns, i) != Conversation(turns, i)
  }

  /** The compressor leaves this turn's input as it is. */
  ghost predicate Idle(proxy: Proxy, turns: seq<Turn>, i: nat)
    requires i < |turns|
  {
    i == 0 || turns[i].input == [] || proxy.compress(turns[..i + 1], turns[i].input) == turns[i].input
  }

  /** The compressor replaces the messages of this session one for one. */
  ghost predicate CountPreserving(proxy: Proxy, turns: seq<Turn>) {
    forall i :: 0 < i < |turns| ==> |proxy.compress(turns[..i + 1], turns[i].input)| == |turns[i].input|
  }

  // ----- What counts as a rewrite -----

  /** A request is rewritten when it is not the conversation, and retroactively so exactly when it no
      longer starts with the conversation before the latest turn. */
  lemma RewriteScopeMeans(original: seq<Message>, forwarded: seq<Message>, stablePrefix: nat)
    requires stablePrefix <= |original|
    ensures RewriteScope(original, forwarded, stablePrefix)
         == (original != forwarded, !(original[..stablePrefix] <= forwarded))
  {
    var prefix := original[..stablePrefix];
    if |forwarded| >= stablePrefix {
      assert prefix <= forwarded <==> forwarded[..stablePrefix] == prefix;
    }
  }

  // ----- A compressor that changes nothing is the baseline -----

  lemma {:induction false} IdleForwardsRequest(proxy: Proxy, turns: seq<Turn>, i: nat)
    requires i < |turns|
    requires forall j :: 0 <= j <= i ==> Idle(proxy, turns, j)
    ensures !Rewritten(proxy, turns, i)
  {
    if i > 0 {
      IdleForwardsRequest(proxy, turns, i - 1);
      assert Idle(proxy, turns, i);
      assert ForwardedContext(proxy, turns, i) == Context(turns, i);
    }
  }

  lemma {:induction false} UnchangedMeansIdle(proxy: Proxy, turns: seq<Turn>, i: nat)
    requires 0 < i < |turns|
    requires !Rewritten(proxy, turns, i - 1) && !Rewritten(proxy, turns, i)
    ensures Idle(proxy, turns, i)
  {
    var context := Context(turns, i);
    assert ForwardedContext(proxy, turns, i) == context;
    if turns[i].input != [] {
      var out := proxy.compress(turns[..i + 1], turns[i].input);
      assert Forwarded(proxy, CacheMode, turns, i) == context + out;
      assert Conversation(turns, i) == context + turns[i].input;
      assert (context + out)[|context|..] == out;
      assert (context + turns[i].input)[|context|..] == turns[i].input;
    }
  }

  lemma {:induction false} NoneSum(scores: seq<RewriteTurns>, k: nat)
    requires k <= |scores|
    ensures SumReach(scores, k).all == 0 <==> forall i :: 0 <= i < k ==> scores[i].reach.all == 0
  {
    if k > 0 {
      NoneSum(scores, k - 1);
    }
  }

  lemma {:induction false} RewriteCounted(setup: Setup, proxy: Proxy, turns: seq<Turn>, i: nat)
    requires i < |turns|
    ensures RewritesAt(setup, Requests(setup, proxy, CacheMode, turns), i).reach.all
         == if Rewritten(proxy, turns, i) then 1 else 0
  {
    assert Requests(setup, proxy, CacheMode, turns)[i] == RequestAt(setup, proxy, CacheMode, turns, i);
  }

  lemma {:induction false} NoRewritesCounted(setup: Setup, proxy: Proxy, turns: seq<Turn>)
    ensures SessionTotals(setup, proxy, CacheMode, turns).rewrites.reach.all == 0
       <==> forall i :: 0 <= i < |turns| ==> !Rewritten(proxy, turns, i)
  {
    var scores := RewriteScores(setup, Requests(setup, proxy, CacheMode, turns));
    NoneSum(scores, |turns|);
    forall i | 0 <= i < |turns|
      ensures scores[i].reach.all == if Rewritten(proxy, turns, i) then 1 else 0
    {
      RewriteCounted(setup, proxy, turns, i);
    }
  }

  lemma {:induction false} BaselineCountsNoRewrites(setup: Setup, proxy: Proxy, turns: seq<Turn>)
    ensures SessionTotals(setup, proxy, Baseline, turns).rewrites.reach.all == 0
  {
    var requests := Requests(setup, proxy, Baseline, turns);
    var scores := RewriteScores(setup, requests);
    forall i | 0 <= i < |turns|
      ensures scores[i].reach.all == 0
    {
      assert requests[i] == RequestAt(setup, proxy, Baseline, turns, i);
    }
    NoneSum(scores, |turns|);
  }

  /** Cache mode has the summary of the baseline exactly when the compressor is idle on the whole session. */
  lemma {:induction false} BaselineExactlyWhenIdle(setup: Setup, proxy: Proxy, turns: seq<Turn>)
    ensures SessionTotals(setup, proxy, CacheMode, turns) == SessionTotals(setup, proxy, Baseline, turns)
       <==> forall i :: 0 <= i < |turns| ==> Idle(proxy, turns, i)
  {
    if forall i :: 0 <= i < |turns| ==> Idle(proxy, turns, i) {
      forall i | 0 <= i < |turns|
        ensures RequestAt(setup, proxy, CacheMode, turns, i) == RequestAt(setup, proxy, Baseline, turns, i)
      {
        IdleForwardsRequest(proxy, turns, i);
      }
      assert Requests(setup, proxy, CacheMode, turns) == Requests(setup, proxy, Baseline, turns);
    }
    if SessionTotals(setup, proxy, CacheMode, turns) == SessionTotals(setup, proxy, Baseline, turns) {
      BaselineCountsNoRewrites(setup, proxy, turns);
      NoRewritesCounted(setup, proxy, turns);
      forall i | 0 <= i < |turns|
        ensures Idle(proxy, turns, i)
      {
        if i > 0 {
          UnchangedMeansIdle(proxy, turns, i);
        }
      }
    }
  }

  // ----- A one-for-one compressor rewrites a suffix of the session -----

  lemma {:induction false} SameLength(proxy: Proxy, turns: seq<Turn>, i: nat)
    requires i < |turns| && CountPreserving(proxy, turns)
    ensures |Forwarded(proxy, CacheMode, turns, i)| == |Conversation(turns, i)|
    ensures i > 0 ==> |ForwardedContext(proxy, turns, i)| == |Context(turns, i)|
  {
    if i > 0 {
      SameLength(proxy, turns, i - 1);
    }
  }

  /** Before the latest input, a request differs exactly when the last one did. */
  lemma {:induction false} ScopeOfRewrite(proxy: Proxy, turns: seq<Turn>, i: nat)
    requires 0 < i < |turns| && CountPreserving(proxy, turns)
    ensures Rewritten(proxy, turns, i - 1) ==> Rewritten(proxy, turns, i)
    ensures RewriteScope(Conversation(turns, i), Forwarded(proxy, CacheMode, turns, i), |Context(turns, i)|)
         == (Rewritten(proxy, turns, i), Rewritten(proxy, turns, i - 1))
  {
    var n := |Context(turns, i)|;
    var last := [turns[i - 1].assistant];
    SameLength(proxy, turns, i);
    assert Conversation(turns, i)[..n] == Context(turns, i) == Conversation(turns, i - 1) + last;
    assert Forwarded(proxy, CacheMode, turns, i)[..n] == ForwardedContext(proxy, turns, i)
        == Forwarded(proxy, CacheMode, turns, i - 1) + last;
    assert (Conversation(turns, i - 1) + last)[..n - 1] == Conversation(turns, i - 1);
    assert (Forwarded(proxy, CacheMode, turns, i - 1) + last)[..n - 1] == Forwarded(proxy, CacheMode, turns, i - 1);
  }

  /** What the counters add for turn `i`. */
  lemma {:induction false} RewriteKind(setup: Setup, proxy: Proxy, turns: seq<Turn>, i: nat)
    requires i < |turns| && CountPreserving(proxy, turns)
    ensures var r := RewritesAt(setup, Requests(setup, proxy, CacheMode, turns), i).reach;
            && r.all == (if Rewritten(proxy, turns, i) then 1 else 0)
            && r.retroactive == (if i > 0 && Rewritten(proxy, turns, i - 1) then 1 else 0)
            && r.latestOnly == r.all - r.retroactive
    ensures i == 0 ==> !Rewritten(proxy, turns, i)
  {
    assert Requests(setup, proxy, CacheMode, turns)[i] == RequestAt(setup, proxy, CacheMode, turns, i);
    if i > 0 {
      ScopeOfRewrite(proxy, turns, i);
    }
  }

  /** Once a turn is rewritten every later turn is. */
  lemma {:induction false} FirstRewrite(proxy: Proxy, turns: seq<Turn>, k: nat) returns (first: nat)
    requires k <= |turns| && CountPreserving(proxy, turns)
    ensures first <= k && (k > 0 ==> first > 0)
    ensures forall i :: 0 <= i < k ==> (Rewritten(proxy, turns, i) <==> first <= i)
  {
    if k <= 1 {
      first := k;
    } else {
      first := FirstRewrite(proxy, turns, k - 1);
      ScopeOfRewrite(proxy, turns, k - 1);
      if first == k - 1 && !Rewritten(proxy, turns, k - 1) {
        first := k;
      }
    }
  }

  lemma {:induction false} SuffixSum(scores: seq<RewriteTurns>, first: nat, k: nat)
    requires 0 < first && k <= |scores|
    requires forall i :: 0 <= i < |scores| ==>
      && scores[i].reach.all == (if first <= i then 1 else 0)
      && scores[i].reach.latestOnly == (if first == i then 1 else 0)
      && scores[i].reach.retroactive == scores[i].reach.all - scores[i].reach.latestOnly
    ensures var r := SumReach(scores, k);
            && r.all == (if first < k then k - first else 0)
            && r.latestOnly == (if first < k then 1 else 0)
            && r.retroactive == r.all - r.latestOnly
  {
    if k > 0 {
      SuffixSum(scores, first, k - 1);
    }
  }

  /** The rewritten turns are a suffix of the session: the first of them touches only its own
      turn, and every later one repeats it and so reaches back. */
  lemma {:induction false} RewritesFormSuffix(setup: Setup, proxy: Proxy, turns: seq<Turn>) returns (first: nat)
    requires CountPreserving(proxy, turns)
    ensures first <= |turns|
    ensures forall i :: 0 <= i < |turns| ==> (Rewritten(proxy, turns, i) <==> first <= i)
    ensures var r := SessionTotals(setup, proxy, CacheMode, turns).rewrites.reach;
            && r.all == |turns| - first
            && r.latestOnly == (if first < |turns| then 1 else 0)
            && r.retroactive == r.all - r.latestOnly
  {
    first := FirstRewrite(proxy, turns, |turns|);
    if turns != [] {
      var scores := RewriteScores(setup, Requests(setup, proxy, CacheMode, turns));
      forall i | 0 <= i < |turns|
        ensures && scores[i].reach.all == (if first <= i then 1 else 0)
                && scores[i].reach.latestOnly == (if first == i then 1 else 0)
                && scores[i].reach.retroactive == scores[i].reach.all - scores[i].reach.latestOnly
      {
        RewriteKind(setup, proxy, turns, i);
      }
      SuffixSum(scores, first, |turns|);
    }
  }
}
