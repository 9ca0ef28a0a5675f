/** The bust tracer: a replay loop of its own that reports where cached prefixes broke. It looks at
    a request only when the next one arrives. */
module BustTracer {
  import opened Messages
  import opened Replay
  import opened Simulator
  import opened Merging
  import opened Checkpoints
  import opened ReplayTheorems
  import opened Events

  /** The messages at the break; the current request may have none there. */
  datatype Site = Site(firstDiff: Option<nat>, previous: Option<Message>, current: Option<Message>)

  datatype Lengths = Lengths(previous: nat, current: nat)

  /** The ends of what was forwarded, with the answer to it, and of the conversation it was made of. */
  datatype Tails = Tails(forwarded: seq<Message>, original: seq<Message>)

  datatype BustEvent = BustEvent(
    mode: Mode, origin: Origin, requestId: string, timestamp: int, site: Site, lengths: Lengths, retroactive: bool,
    tails: Tails)

  // ----- The direct form -----

  function MessageAt(messages: seq<Message>, index: Option<nat>): Option<Message> {
    if index.Some? && index.value < |messages| then Some(messages[index.value]) else None
  }

  function BreakBetween(mode: Mode, origin: Origin, request: Request, previous: seq<Message>): BustEvent {
    var index := FirstDifference(previous, request.forwarded);
    var stablePrefix := if previous == [] then 0 else |previous| - 1;
    BustEvent(mode, origin, request.turn.requestId, request.turn.timestamp,
              Site(index, MessageAt(previous, index), MessageAt(request.forwarded, index)),
              Lengths(|previous|, |request.forwarded|),
              RewriteScope(request.original, request.forwarded, stablePrefix).1,
              Tails(LastFour(request.forwarded + [request.turn.assistant]), LastFour(request.original)))
  }

  function BreakAt(setup: Setup, mode: Mode, origin: Origin, requests: seq<Request>, i: nat): Option<BustEvent>
    requires i < |requests|
  {
    var r, previous := requests[i], SentBefore(requests, i);
    if Busts(setup, r.forwarded, r.turn.timestamp, previous) then
      Some(BreakBetween(mode, origin, r, previous.value.forwarded))
    else None
  }

  /** What is recorded when each turn arrives: the break, if any, of the turn before it. */
  function Breaks(setup: Setup, mode: Mode, origin: Origin, requests: seq<Request>): (breaks: seq<Option<BustEvent>>)
    ensures |breaks| == |requests|
    ensures forall i {:trigger breaks[i]} :: 0 <= i < |breaks| ==>
              breaks[i] == if i == 0 then None else BreakAt(setup, mode, origin, requests, i - 1)
  {
    seq(|requests|,
        i requires 0 <= i < |requests| => if i == 0 then None else BreakAt(setup, mode, origin, requests, i - 1))
  }

  function SessionTrace(job: Job, origin: Origin, turns: seq<Turn>): seq<BustEvent> {
    var breaks := Breaks(job.setup, job.mode, origin, Requests(job.setup, job.proxy, job.mode, turns));
    Present(breaks, |breaks|)
  }

  function FileTrace(job: Job, file: SessionFile): seq<BustEvent> {
    match file.turns
    case None => []
    case Some(turns) => SessionTrace(job, file.Source(), Trim(turns, job.recent))
  }

  function Traces(job: Job, files: seq<SessionFile>): (lists: seq<seq<BustEvent>>)
    ensures |lists| == |files|
    ensures forall f {:trigger lists[f]} :: 0 <= f < |files| ==> lists[f] == FileTrace(job, files[f])
  {
    seq(|files|, f requires 0 <= f < |files| => FileTrace(job, files[f]))
  }

  function FullTrace(job: Job, files: seq<SessionFile>): seq<BustEvent> {
    Joined(Traces(job, files), |files|)
  }

  // ----- The loop -----

  /** `context` is the loop's forwarded context: by now it holds the pending request and its answer. */
  method TracePending(setup: Setup, mode: Mode, origin: Origin, pending: Request, previous: Option<Sent>,
                      context: Option<seq<Message>>, ghost requests: seq<Request>, ghost i: nat)
    returns (event: Option<BustEvent>)
    requires i < |requests| && pending == requests[i] && previous == SentBefore(requests, i)
    requires context == Some(pending.forwarded + [pending.turn.assistant])
    ensures event == BreakAt(setup, mode, origin, requests, i)
  {
    event := None;
    if WithinTtl(setup, pending.turn.timestamp, previous) && previous.value.forwarded != [] {
      var prior, current := previous.value.forwarded, pending.forwarded;
      if !(|current| >= |prior| && current[..|prior|] == prior) {
        var index := FirstDiffIndex(prior, current);
        var (_, retroactive) := RewriteScope(pending.original, current, |prior| - 1);
        event := Some(BustEvent(mode, origin, pending.turn.requestId, pending.turn.timestamp,
                                Site(index, MessageAt(prior, index), MessageAt(current, index)),
                                Lengths(|prior|, |current|), retroactive,
                                Tails(LastFour(context.value), LastFour(pending.original))));
      }
    }
  }

  ghost predicate Foreseen(job: Job, origin: Origin, turns: seq<Turn>, breaks: seq<Option<BustEvent>>) {
    breaks == Breaks(job.setup, job.mode, origin, Requests(job.setup, job.proxy, job.mode, turns))
  }

  method TraceTurn(job: Job, origin: Origin, turns: seq<Turn>, i: nat, state: LoopState,
                   ghost breaks: seq<Option<BustEvent>>)
    returns (state': LoopState, event: Option<BustEvent>)
    requires i < |turns| == |breaks| && Foreseen(job, origin, turns, breaks)
    requires AtTurn(job, turns, i, state)
    ensures AtTurn(job, turns, i + 1, state')
    ensures event == breaks[i]
  {
    var request, carried := NextRequest(job.setup, job.proxy, job.mode, turns, i, state.carried);
    ghost var requests := Requests(job.setup, job.proxy, job.mode, turns);
    assert request == requests[i];
    event := None;
    var previous := state.previous;
    if state.pending.Some? {
      event := TracePending(job.setup, job.mode, origin, state.pending.value, state.previous,
                            state.carried.previousForwarded, requests, i - 1);
      previous := Some(state.pending.value.AsSent());
    }
    state' := LoopState(carried, Some(request), previous);
  }

  method TraceStep(job: Job, origin: Origin, turns: seq<Turn>, i: nat, state: LoopState, events: seq<BustEvent>,
                   room: int, ghost breaks: seq<Option<BustEvent>>)
    returns (state': LoopState, events': seq<BustEvent>, full: bool)
    requires i < |turns| == |breaks| && Foreseen(job, origin, turns, breaks)
    requires AtTurn(job, turns, i, state) && Scanned(events, breaks, i, room)
    ensures AtTurn(job, turns, i + 1, state')
    ensures if full then events' == Capped(Present(breaks, |breaks|), room) else Scanned(events', breaks, i + 1, room)
  {
    var event;
    state', event := TraceTurn(job, origin, turns, i, state, breaks);
    events' := events + Recorded(event);
    full := event.Some? && |events'| >= room;
    ScanOne(events, breaks, i, room, events');
  }

  method TraceTurns(job: Job, origin: Origin, turns: seq<Turn>, room: int,
                    ghost breaks: seq<Option<BustEvent>>)
    returns (events: seq<BustEvent>)
    requires |turns| == |breaks| && Foreseen(job, origin, turns, breaks)
    requires AtTurn(job, turns, 0, START)
    ensures events == Capped(Present(breaks, |breaks|), room)
  {
    events := [];
    var state, i, full := START, 0, false;
    while i < |turns| && !full
      invariant i <= |turns| && AtTurn(job, turns, i, state)
      invariant if full then events == Capped(Present(breaks, |breaks|), room) else Scanned(events, breaks, i, room)
    {
      state, events, full := TraceStep(job, origin, turns, i, state, events, room, breaks);
      i := i + 1;
    }
    if !full {
      ScannedAll(events, breaks, room);
    }
  }

  method TraceFile(job: Job, file: SessionFile, room: int) returns (events: seq<BustEvent>)
    requires file.turns.Some?
    ensures events == Capped(FileTrace(job, file), room)
  {
    var turns := Trim(file.turns.value, job.recent);
    ghost var requests := Requests(job.setup, job.proxy, job.mode, turns);
    ghost var breaks := Breaks(job.setup, job.mode, file.Source(), requests);
    events := TraceTurns(job, file.Source(), turns, room, breaks);
  }

  ghost predicate ListsOf(lists: seq<seq<BustEvent>>, job: Job, files: seq<SessionFile>) {
    lists == Traces(job, files)
  }

  method TraceNext(job: Job, files: seq<SessionFile>, cap: int, f: nat, events: seq<BustEvent>,
                   ghost lists: seq<seq<BustEvent>>)
    returns (events': seq<BustEvent>, done: bool)
    requires f < |files| == |lists| && ListsOf(lists, job, files)
    requires Gathered(events, lists, f, cap)
    ensures if done then events' == Capped(Joined(lists, |lists|), cap) else Gathered(events', lists, f + 1, cap)
  {
    assert lists[f] == FileTrace(job, files[f]);
    var found := [];
    if files[f].turns.Some? {
      found := TraceFile(job, files[f], cap - |events|);
    }
    GatherOne(events, lists, f, cap, found);
    events' := events + found;
    done := found != [] && |events'| >= cap;
  }

  /** `trace_mode`: the first breaks of a mode, up to the cap but at least one. */
  method TraceMode(job: Job, files: seq<SessionFile>, cap: int) returns (events: seq<BustEvent>)
    ensures events == Capped(FullTrace(job, files), cap)
  {
    events := [];
    var done;
    ghost var lists := Traces(job, files);
    for f := 0 to |files|
      invariant Gathered(events, lists, f, cap)
    {
      events, done := TraceNext(job, files, cap, f, events, lists);
      if done {
        return;
      }
    }
    GatheredAll(events, lists, cap);
  }

  // ----- What an event says about the break -----

  /** The recorded index is the least one at which the requests differ, it lies strictly inside the
      previous request, and the two recorded messages are the ones that differ. */
  lemma {:induction false} SiteOfBreak(setup: Setup, mode: Mode, origin: Origin, requests: seq<Request>, i: nat)
    requires i < |requests| && BreakAt(setup, mode, origin, requests, i).Some?
    ensures i > 0
    ensures var previous, current := requests[i - 1].forwarded, requests[i].forwarded;
            var site := BreakAt(setup, mode, origin, requests, i).value.site;
            && site.firstDiff.Some? && site.firstDiff.value < |previous| && site.firstDiff.value <= |current|
            && previous[..site.firstDiff.value] == current[..site.firstDiff.value]
            && site.previous == Some(previous[site.firstDiff.value])
            && site.current == (if site.firstDiff.value < |current| then Some(current[site.firstDiff.value]) else None)
            && site.current != site.previous
  {
    var previous, current := requests[i - 1].forwarded, requests[i].forwarded;
    BreakIsInside(previous, current);
    FirstDifferenceIsLeast(previous, current, FirstDifference(previous, current).value);
  }

  // ----- The trace agrees with the simulator -----

  function BustOnLast(setup: Setup, requests: seq<Request>): nat {
    if requests == [] then 0 else CacheAt(setup, requests, |requests| - 1).busts
  }

  /** A break is found exactly for the turns the simulator counts as busts. */
  lemma BreakIsBust(setup: Setup, mode: Mode, origin: Origin, requests: seq<Request>, i: nat)
    requires i < |requests|
    ensures CacheAt(setup, requests, i).busts == if BreakAt(setup, mode, origin, requests, i).Some? then 1 else 0
  {
  }

  lemma {:induction false} PresentBusts(scores: seq<CacheTurns>, breaks: seq<Option<BustEvent>>, k: nat)
    requires 0 < k <= |breaks| == |scores| && breaks[0].None?
    requires forall i {:trigger breaks[i]} :: 0 < i < |breaks| ==>
      scores[i - 1].busts == if breaks[i].Some? then 1 else 0
    ensures SumCache(scores, k).busts == |Present(breaks, k)| + scores[k - 1].busts
  {
    if k > 1 {
      PresentBusts(scores, breaks, k - 1);
      assert scores[k - 2].busts == if breaks[k - 1].Some? then 1 else 0;
    } else {
      assert Present(breaks, 0) == [];
    }
  }

  lemma {:induction false} BustsOfRequests(setup: Setup, mode: Mode, origin: Origin, requests: seq<Request>)
    ensures SumCache(CacheScores(setup, requests), |requests|).busts
         == |Present(Breaks(setup, mode, origin, requests), |requests|)| + BustOnLast(setup, requests)
  {
    var scores, breaks := CacheScores(setup, requests), Breaks(setup, mode, origin, requests);
    if requests != [] {
      forall i {:trigger breaks[i]} | 0 < i < |breaks|
        ensures scores[i - 1].busts == if breaks[i].Some? then 1 else 0
      {
        BreakIsBust(setup, mode, origin, requests, i - 1);
      }
      PresentBusts(scores, breaks, |breaks|);
    }
  }

  /** Of a session's busts the trace misses exactly the one on the last turn, if there is one. */
  lemma {:induction false} SessionBusts(job: Job, origin: Origin, turns: seq<Turn>)
    ensures SessionTotals(job.setup, job.proxy, job.mode, turns).cache.busts
         == |SessionTrace(job, origin, turns)|
           + BustOnLast(job.setup, Requests(job.setup, job.proxy, job.mode, turns))
  {
    BustsOfRequests(job.setup, job.mode, origin, Requests(job.setup, job.proxy, job.mode, turns));
  }

  function LastBust(job: Job, file: SessionFile): nat {
    match file.turns
    case None => 0
    case Some(turns) => BustOnLast(job.setup, Requests(job.setup, job.proxy, job.mode, Trim(turns, job.recent)))
  }

  /** How many of the first `k` sessions end in a bust. */
  function LastBusts(job: Job, files: seq<SessionFile>, k: nat): nat
    requires k <= |files|
  {
    if k == 0 then 0 else LastBusts(job, files, k - 1) + LastBust(job, files[k - 1])
  }

  lemma {:induction false} FileBusts(job: Job, file: SessionFile)
    ensures PartOf(job, file).cache.busts == |FileTrace(job, file)| + LastBust(job, file)
  {
    if file.turns.Some? {
      SessionBusts(job, file.Source(), Trim(file.turns.value, job.recent));
    }
  }

  lemma {:induction false} JoinedBusts(job: Job, files: seq<SessionFile>, parts: seq<Totals>,
                                       traces: seq<seq<BustEvent>>, k: nat)
    requires k <= |files| == |parts| == |traces|
    requires forall f :: 0 <= f < |files| ==> parts[f].cache.busts == |traces[f]| + LastBust(job, files[f])
    ensures Indices(Upto(k), |parts|)
    ensures MergedSoFar(parts, Upto(k)).cache.busts == |Joined(traces, k)| + LastBusts(job, files, k)
  {
    if k > 0 {
      JoinedBusts(job, files, parts, traces, k - 1);
      assert Upto(k) == Upto(k - 1) + [k - 1];
      MergeOneMore(parts, Upto(k - 1), k - 1);
    }
  }

  /** Over all sessions, below its cap, the trace holds as many events as the simulator counts busts,
      less one for each session that ends in a bust. */
  lemma {:induction false} TracerAgrees(job: Job, files: seq<SessionFile>, cap: int)
    ensures var busts := AllFiles(Parts(job, files)).cache.busts - LastBusts(job, files, |files|);
            var limit := if cap < 1 then 1 else cap;
            |Capped(FullTrace(job, files), cap)| == if busts <= limit then busts else limit
  {
    var parts, traces := Parts(job, files), Traces(job, files);
    forall f | 0 <= f < |files|
      ensures parts[f].cache.busts == |traces[f]| + LastBust(job, files[f])
    {
      FileBusts(job, files[f]);
      assert traces[f] == FileTrace(job, files[f]);
    }
    JoinedBusts(job, files, parts, traces, |files|);
  }

  lemma {:induction false} NothingJoined(lists: seq<seq<BustEvent>>, k: nat)
    requires k <= |lists| && forall f :: 0 <= f < |lists| ==> lists[f] == []
    ensures Joined(lists, k) == []
  {
    if k > 0 {
      NothingJoined(lists, k - 1);
    }
  }

  /** Outside token mode there is never anything to trace, whatever the sessions and the compressor. */
  lemma {:induction false} NothingToTrace(job: Job, files: seq<SessionFile>)
    requires job.mode != TokenMode
    ensures FullTrace(job, files) == []
  {
    var traces := Traces(job, files);
    forall f | 0 <= f < |files|
      ensures traces[f] == []
    {
      if files[f].turns.Some? {
        var turns := Trim(files[f].turns.value, job.recent);
        SessionBusts(job, files[f].Source(), turns);
        CacheModeNeverBusts(job.setup, job.proxy, job.mode, turns);
      }
    }
    NothingJoined(traces, |files|);
  }

  /** Although it is reported as the tail of the previous request, what an event shows of the forwarded
      context ends with the answer to the broken request itself. */
  lemma TailEndsInAnswer(setup: Setup, mode: Mode, origin: Origin, requests: seq<Request>, i: nat)
    requires i < |requests| && BreakAt(setup, mode, origin, requests, i).Some?
    ensures var tail := BreakAt(setup, mode, origin, requests, i).value.tails.forwarded;
            tail != [] && tail[|tail| - 1] == requests[i].turn.assistant
  {
    var context := requests[i].forwarded + [requests[i].turn.assistant];
    assert LastFour(context)[|LastFour(context)| - 1] == context[|context| - 1];
  }

  /** A session of two turns leaves no trace: its first turn has nothing to break, and its last one is
      never looked at. */
  lemma {:induction false} TwoTurnsLeaveNoTrace(job: Job, origin: Origin, turns: seq<Turn>)
    requires |turns| == 2
    ensures SessionTrace(job, origin, turns) == []
  {
    var breaks := Breaks(job.setup, job.mode, origin, Requests(job.setup, job.proxy, job.mode, turns));
    assert breaks[0].None? && breaks[1].None?;
    assert Present(breaks, 1) == Present(breaks, 0) == [];
  }

  lemma NotesBreak(previous: seq<Message>, current: seq<Message>, a: Message, b: Message)
    requires previous != [] && a != b
    ensures !(Noted(previous, a) <= Noted(current, b))
  {
    assert Noted(previous, a)[0] == a;
    assert current != [] ==> Noted(current, b)[0] == b;
  }

  lemma {:induction false} NotesOfTwoTurns(setup: Setup, job: Job, note: nat -> Message, first: Turn, second: Turn)
    requires job.mode == TokenMode
    requires job.proxy.forwardToken([first]) == Noted(first.input, note(1))
    requires job.proxy.forwardToken([first, second]) == Noted(Conversation([first, second], 1), note(2))
    ensures var requests := Requests(setup, job.proxy, TokenMode, [first, second]);
            && requests[0].forwarded == Noted(first.input, note(1)) && requests[0].turn == first
            && requests[1].forwarded == Noted(Conversation([first, second], 1), note(2)) && requests[1].turn == second
  {
    var turns := [first, second];
    assert turns[..1] == [first] && turns[..2] == turns;
    var requests := Requests(setup, job.proxy, TokenMode, turns);
    assert requests[0] == RequestAt(setup, job.proxy, TokenMode, turns, 0);
    assert requests[1] == RequestAt(setup, job.proxy, TokenMode, turns, 1);
  }

  lemma NoteTakerNotes(setup: Setup, compress: (seq<Turn>, seq<Message>) -> seq<Message>, note: nat -> Message,
                       first: Turn, second: Turn)
    ensures var job := NoteTaker(setup, compress, note);
            && job.proxy.forwardToken([first]) == Noted(first.input, note(1))
            && job.proxy.forwardToken([first, second]) == Noted(Conversation([first, second], 1), note(2))
  {
    assert Conversation([first], 0) == first.input;
  }

  /** A session of two turns whose last one breaks the cache: the simulator counts the bust, the tracer
      sees nothing. */
  lemma LastBustIsMissed(setup: Setup, compress: (seq<Turn>, seq<Message>) -> seq<Message>, note: nat -> Message,
                         origin: Origin, first: Turn, second: Turn)
    requires second.timestamp - first.timestamp <= setup.ttl && first.input != [] && note(1) != note(2)
    ensures var job := NoteTaker(setup, compress, note);
            && SessionTotals(setup, job.proxy, TokenMode, [first, second]).cache.busts == 1
            && SessionTrace(job, origin, [first, second]) == []
  {
    var job, turns := NoteTaker(setup, compress, note), [first, second];
    NoteTakerNotes(setup, compress, note, first, second);
    NotesOfTwoTurns(setup, job, note, first, second);
    NotesBreak(first.input, Conversation(turns, 1), note(1), note(2));
    SessionBusts(job, origin, turns);
    TwoTurnsLeaveNoTrace(job, origin, turns);
  }
}
