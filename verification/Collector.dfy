/** The event collector: a replay loop of its own that reports every rewritten request. */
module Collector {
  import opened Messages
  import opened Replay
  import opened Simulator
  import opened Merging
  import opened Checkpoints
  import opened Events

  /** What happened to the cached prefix. `preserved` and `firstDiff` are absent where they make no sense. */
  datatype Verdict = Verdict(eligible: bool, preserved: Option<bool>, firstDiff: Option<nat>)

  /** The ends of the conversation and of what was forwarded of it. */
  datatype Tails = Tails(original: seq<Message>, forwarded: seq<Message>)

  datatype Event = Event(mode: Mode, origin: Origin, requestId: string, timestamp: int, verdict: Verdict,
                         retroactive: bool, tails: Tails)

  // ----- The direct form: each event from its window -----

  function VerdictOn(setup: Setup, forwarded: seq<Message>, timestamp: int, previous: Option<Sent>): Verdict {
    if WithinTtl(setup, timestamp, previous) && previous.value.forwarded != [] then
      if previous.value.forwarded <= forwarded then Verdict(true, Some(true), None)
      else Verdict(true, Some(false), FirstDifference(previous.value.forwarded, forwarded))
    else Verdict(false, None, None)
  }

  function EventAt(setup: Setup, mode: Mode, origin: Origin, requests: seq<Request>, i: nat): Option<Event>
    requires i < |requests|
  {
    var r := requests[i];
    var (rewrite, retroactive) := RewriteScope(r.original, r.forwarded, r.priorCount);
    if !rewrite then None
    else Some(Event(mode, origin, r.turn.requestId, r.turn.timestamp,
                    VerdictOn(setup, r.forwarded, r.turn.timestamp, SentBefore(requests, i)), retroactive,
                    Tails(LastFour(r.original), LastFour(r.forwarded))))
  }

  function Entries(setup: Setup, mode: Mode, origin: Origin, requests: seq<Request>): (entries: seq<Option<Event>>)
    ensures |entries| == |requests|
    ensures forall i {:trigger entries[i]} :: 0 <= i < |requests| ==>
      entries[i] == EventAt(setup, mode, origin, requests, i)
  {
    seq(|requests|, i requires 0 <= i < |requests| => EventAt(setup, mode, origin, requests, i))
  }

  function SessionEvents(job: Job, origin: Origin, turns: seq<Turn>): seq<Event> {
    var entries := Entries(job.setup, job.mode, origin, Requests(job.setup, job.proxy, job.mode, turns));
    Present(entries, |entries|)
  }

  function FileEvents(job: Job, file: SessionFile): seq<Event> {
    match file.turns
    case None => []
    case Some(turns) => SessionEvents(job, file.Source(), Trim(turns, job.recent))
  }

  function EventLists(job: Job, files: seq<SessionFile>): (lists: seq<seq<Event>>)
    ensures |lists| == |files|
    ensures forall f {:trigger lists[f]} :: 0 <= f < |files| ==> lists[f] == FileEvents(job, files[f])
  {
    seq(|files|, f requires 0 <= f < |files| => FileEvents(job, files[f]))
  }

  /** Every event of a mode, in session order. */
  function AllEvents(job: Job, files: seq<SessionFile>): seq<Event> {
    Joined(EventLists(job, files), |files|)
  }

  function FirstReplay(files: seq<SessionFile>): nat {
    if files == [] then 0 else if files[0].turns.Some? then 0 else 1 + FirstReplay(files[1..])
  }

  // ----- The loop -----

  method MakeEvent(setup: Setup, mode: Mode, origin: Origin, request: Request, prior: Option<Sent>,
                   ghost requests: seq<Request>, ghost i: nat)
    returns (event: Option<Event>)
    requires i < |requests| && request == requests[i] && prior == SentBefore(requests, i)
    ensures event == EventAt(setup, mode, origin, requests, i)
  {
    var (rewrite, retroactive) := RewriteScope(request.original, request.forwarded, request.priorCount);
    if !rewrite {
      return None;
    }
    var eligible := WithinTtl(setup, request.turn.timestamp, prior) && prior.value.forwarded != [];
    var preserved: Option<bool>, firstDiff: Option<nat> := None, None;
    if eligible {
      preserved := Some(prior.value.forwarded <= request.forwarded);
      if !preserved.value {
        firstDiff := FirstDiffIndex(prior.value.forwarded, request.forwarded);
      }
    }
    event := Some(Event(mode, origin, request.turn.requestId, request.turn.timestamp,
                        Verdict(eligible, preserved, firstDiff), retroactive,
                        Tails(LastFour(request.original), LastFour(request.forwarded))));
  }

  /** A session worked out in advance: its requests, and the event each of them leaves, if any. */
  ghost predicate Foreseen(job: Job, origin: Origin, turns: seq<Turn>, entries: seq<Option<Event>>) {
    entries == Entries(job.setup, job.mode, origin, Requests(job.setup, job.proxy, job.mode, turns))
  }

  method CollectTurn(job: Job, origin: Origin, turns: seq<Turn>, i: nat, state: LoopState,
                     ghost entries: seq<Option<Event>>)
    returns (state': LoopState, event: Option<Event>)
    requires i < |turns| == |entries| && Foreseen(job, origin, turns, entries)
    requires AtTurn(job, turns, i, state)
    ensures AtTurn(job, turns, i + 1, state')
    ensures event == entries[i]
  {
    var request, carried := NextRequest(job.setup, job.proxy, job.mode, turns, i, state.carried);
    ghost var requests := Requests(job.setup, job.proxy, job.mode, turns);
    assert request == requests[i];
    var prior := if state.pending.Some? then Some(state.pending.value.AsSent()) else state.previous;
    event := MakeEvent(job.setup, job.mode, origin, request, prior, requests, i);
    state' := LoopState(carried, Some(request), prior);
  }

  method CollectStep(job: Job, origin: Origin, turns: seq<Turn>, i: nat, state: LoopState, events: seq<Event>,
                     room: int, ghost entries: seq<Option<Event>>)
    returns (state': LoopState, events': seq<Event>, full: bool)
    requires i < |turns| == |entries| && Foreseen(job, origin, turns, entries)
    requires AtTurn(job, turns, i, state) && Scanned(events, entries, i, room)
    ensures AtTurn(job, turns, i + 1, state')
    ensures if full then events' == Capped(Present(entries, |entries|), room)
            else Scanned(events', entries, i + 1, room)
  {
    var event;
    state', event := CollectTurn(job, origin, turns, i, state, entries);
    events' := events + Recorded(event);
    full := event.Some? && |events'| >= room;
    ScanOne(events, entries, i, room, events');
  }

  method CollectTurns(job: Job, origin: Origin, turns: seq<Turn>, room: int, ghost entries: seq<Option<Event>>)
    returns (events: seq<Event>)
    requires |turns| == |entries| && Foreseen(job, origin, turns, entries)
    requires AtTurn(job, turns, 0, START)
    ensures events == Capped(Present(entries, |entries|), room)
  {
    events := [];
    var state, i, full := START, 0, false;
    while i < |turns| && !full
      invariant i <= |turns| && AtTurn(job, turns, i, state)
      invariant if full then events == Capped(Present(entries, |entries|), room) else Scanned(events, entries, i, room)
    {
      state, events, full := CollectStep(job, origin, turns, i, state, events, room, entries);
      i := i + 1;
    }
    if !full {
      ScannedAll(events, entries, room);
    }
  }

  /** One session, with room for so many more events. */
  method CollectSession(job: Job, origin: Origin, turns: seq<Turn>, room: int) returns (events: seq<Event>)
    ensures events == Capped(SessionEvents(job, origin, turns), room)
  {
    ghost var requests := Requests(job.setup, job.proxy, job.mode, turns);
    ghost var entries := Entries(job.setup, job.mode, origin, requests);
    events := CollectTurns(job, origin, turns, room, entries);
  }

  method CollectFile(job: Job, file: SessionFile, room: int) returns (events: seq<Event>)
    requires file.turns.Some?
    ensures events == Capped(FileEvents(job, file), room)
  {
    events := CollectSession(job, file.Source(), Trim(file.turns.value, job.recent), room);
  }

  ghost predicate NoReplayYet(files: seq<SessionFile>, f: nat)
    requires f <= |files|
  {
    forall g :: 0 <= g < f ==> files[g].turns.None?
  }

  lemma {:induction false} FirstReplayIs(files: seq<SessionFile>, f: nat)
    requires f <= |files| && NoReplayYet(files, f) && (f == |files| || files[f].turns.Some?)
    ensures FirstReplay(files) == f
  {
    if f > 0 {
      assert files[0].turns.None?;
      assert forall g :: 0 <= g < f - 1 ==> files[1..][g] == files[g + 1];
      FirstReplayIs(files[1..], f - 1);
    }
  }

  /** With a positive cap a mode yields its first events, up to the cap. Without one, the cap is
      only met after the first session that can be replayed, which yields at most one event. */
  function CollectedEvents(job: Job, files: seq<SessionFile>, cap: int): seq<Event> {
    if cap > 0 then Capped(AllEvents(job, files), cap)
    else if FirstReplay(files) < |files| then Capped(FileEvents(job, files[FirstReplay(files)]), cap)
    else []
  }

  /** One more session: the cap is reached, or everything up to here has been collected. */
  lemma OneMoreSession(job: Job, files: seq<SessionFile>, cap: int, f: nat, events: seq<Event>, found: seq<Event>)
    requires f < |files| && files[f].turns.Some?
    requires events == Joined(EventLists(job, files), f) && (events == [] || |events| < cap)
    requires cap <= 0 ==> events == [] && NoReplayYet(files, f)
    requires found == Capped(FileEvents(job, files[f]), cap - |events|)
    ensures |events + found| >= cap ==> events + found == CollectedEvents(job, files, cap)
    ensures |events + found| < cap ==> events + found == Joined(EventLists(job, files), f + 1)
  {
    var lists := EventLists(job, files);
    assert lists[f] == FileEvents(job, files[f]);
    if cap <= 0 {
      FirstReplayIs(files, f);
    } else {
      GatherOne(events, lists, f, cap, found);
    }
  }

  /** Everything before file `f` has been collected and there is still room. */
  ghost predicate Upcoming(events: seq<Event>, job: Job, files: seq<SessionFile>, f: nat, cap: int) {
    && f <= |files| && events == Joined(EventLists(job, files), f)
    && (events == [] || |events| < cap)
    && (cap <= 0 ==> events == [] && NoReplayYet(files, f))
  }

  method CollectNext(job: Job, files: seq<SessionFile>, cap: int, f: nat, events: seq<Event>)
    returns (events': seq<Event>, done: bool)
    requires f < |files| && Upcoming(events, job, files, f, cap)
    ensures done ==> events' == CollectedEvents(job, files, cap)
    ensures !done ==> Upcoming(events', job, files, f + 1, cap)
  {
    events', done := events, false;
    if files[f].turns.Some? {
      var found := CollectFile(job, files[f], cap - |events|);
      OneMoreSession(job, files, cap, f, events, found);
      events' := events + found;
      done := |events'| >= cap;
    } else {
      assert EventLists(job, files)[f] == FileEvents(job, files[f]) == [];
    }
  }

  lemma CollectedAll(events: seq<Event>, job: Job, files: seq<SessionFile>, cap: int)
    requires Upcoming(events, job, files, |files|, cap)
    ensures events == CollectedEvents(job, files, cap)
  {
    if cap <= 0 {
      FirstReplayIs(files, |files|);
    }
  }

  method CollectMode(job: Job, files: seq<SessionFile>, cap: int) returns (events: seq<Event>)
    ensures events == CollectedEvents(job, files, cap)
  {
    events := [];
    var done;
    for f := 0 to |files|
      invariant Upcoming(events, job, files, f, cap)
    {
      events, done := CollectNext(job, files, cap, f, events);
      if done {
        return;
      }
    }
    CollectedAll(events, job, files, cap);
  }

  /** `_collect_real_processed_events` */
  method CollectEvents(job: Job, files: seq<SessionFile>, cap: int) returns (events: seq<Event>)
    ensures events
         == CollectedEvents(InMode(job, TokenMode), files, cap) + CollectedEvents(InMode(job, CacheMode), files, cap)
  {
    events := CollectMode(InMode(job, TokenMode), files, cap);
    var more := CollectMode(InMode(job, CacheMode), files, cap);
    events := events + more;
  }

  // ----- The events agree with the simulator -----

  predicate Stable(event: Event) {
    event.verdict.preserved == Some(true)
  }

  predicate Busting(event: Event) {
    event.verdict.preserved == Some(false)
  }

  predicate NonEligible(event: Event) {
    !event.verdict.eligible
  }

  predicate Retroactive(event: Event) {
    event.retroactive
  }

  function CountWhere(events: seq<Event>, p: Event -> bool): nat {
    if events == [] then 0
    else CountWhere(events[..|events| - 1], p) + if p(events[|events| - 1]) then 1 else 0
  }

  lemma {:induction false} CountConcat(a: seq<Event>, b: seq<Event>, p: Event -> bool)
    ensures CountWhere(a + b, p) == CountWhere(a, p) + CountWhere(b, p)
  {
    if b == [] {
      assert a + b == a;
    } else {
      CountConcat(a, b[..|b| - 1], p);
      assert (a + b)[..|a + b| - 1] == a + b[..|b| - 1];
    }
  }

  /** The flags of the events add up to the counters of a summary. */
  ghost predicate Counted(events: seq<Event>, counters: RewriteTurns) {
    match counters
    case RewriteTurns(Outcomes(stable, busting, nonEligible), Reach(all, retroactive, latestOnly)) =>
      && stable == CountWhere(events, Stable)
      && busting == CountWhere(events, Busting)
      && nonEligible == CountWhere(events, NonEligible)
      && all == |events|
      && retroactive == CountWhere(events, Retroactive)
      && latestOnly == |events| - CountWhere(events, Retroactive)
  }

  lemma CountedConcat(a: seq<Event>, b: seq<Event>, forA: RewriteTurns, forB: RewriteTurns)
    requires Counted(a, forA) && Counted(b, forB)
    ensures Counted(a + b, AddRewrites(forA, forB))
  {
    CountConcat(a, b, Stable);
    CountConcat(a, b, Busting);
    CountConcat(a, b, NonEligible);
    CountConcat(a, b, Retroactive);
  }

  /** An event is recorded exactly for the turns the simulator counts as rewrites, and says the same about them. */
  lemma {:induction false} EventMatchesCounters(setup: Setup, mode: Mode, origin: Origin, requests: seq<Request>,
                                                i: nat)
    requires i < |requests|
    ensures Counted(Recorded(EventAt(setup, mode, origin, requests, i)), RewritesAt(setup, requests, i))
  {
    var entry := EventAt(setup, mode, origin, requests, i);
    if entry.Some? {
      var e := entry.value;
      assert [e][..0] == [];
      assert CountWhere([e], Stable) == (if Stable(e) then 1 else 0);
      assert CountWhere([e], Busting) == (if Busting(e) then 1 else 0);
      assert CountWhere([e], NonEligible) == (if NonEligible(e) then 1 else 0);
      assert CountWhere([e], Retroactive) == (if Retroactive(e) then 1 else 0);
    }
  }

  lemma SumLast(scores: seq<RewriteTurns>, k: nat)
    requires k < |scores|
    ensures RewriteTurns(SumOutcomes(scores, k + 1), SumReach(scores, k + 1))
         == AddRewrites(RewriteTurns(SumOutcomes(scores, k), SumReach(scores, k)), scores[k])
  {
  }

  lemma {:induction false} CountedPresent(entries: seq<Option<Event>>, scores: seq<RewriteTurns>, k: nat)
    requires k <= |entries| == |scores|
    requires forall i {:trigger scores[i]} :: 0 <= i < |scores| ==> Counted(Recorded(entries[i]), scores[i])
    ensures Counted(Present(entries, k), RewriteTurns(SumOutcomes(scores, k), SumReach(scores, k)))
  {
    if k > 0 {
      CountedPresent(entries, scores, k - 1);
      CountedConcat(Present(entries, k - 1), Recorded(entries[k - 1]),
                    RewriteTurns(SumOutcomes(scores, k - 1), SumReach(scores, k - 1)), scores[k - 1]);
      SumLast(scores, k - 1);
    }
  }

  lemma {:induction false} SessionCounted(job: Job, origin: Origin, turns: seq<Turn>)
    ensures Counted(SessionEvents(job, origin, turns), SessionTotals(job.setup, job.proxy, job.mode, turns).rewrites)
  {
    var requests := Requests(job.setup, job.proxy, job.mode, turns);
    var entries, scores := Entries(job.setup, job.mode, origin, requests), RewriteScores(job.setup, requests);
    forall i | 0 <= i < |scores|
      ensures Counted(Recorded(entries[i]), scores[i])
    {
      EventMatchesCounters(job.setup, job.mode, origin, requests, i);
    }
    CountedPresent(entries, scores, |scores|);
  }

  lemma {:induction false} FileCounted(job: Job, file: SessionFile)
    ensures Counted(FileEvents(job, file), PartOf(job, file).rewrites)
  {
    if file.turns.Some? {
      SessionCounted(job, file.Source(), Trim(file.turns.value, job.recent));
    }
  }

  lemma {:induction false} JoinedCounted(lists: seq<seq<Event>>, parts: seq<Totals>, k: nat)
    requires k <= |lists| == |parts|
    requires forall f :: 0 <= f < |lists| ==> Counted(lists[f], parts[f].rewrites)
    ensures Indices(Upto(k), |parts|)
    ensures Counted(Joined(lists, k), MergedSoFar(parts, Upto(k)).rewrites)
  {
    if k > 0 {
      JoinedCounted(lists, parts, k - 1);
      assert Upto(k) == Upto(k - 1) + [k - 1];
      MergeOneMore(parts, Upto(k - 1), k - 1);
      CountedConcat(Joined(lists, k - 1), lists[k - 1], MergedSoFar(parts, Upto(k - 1)).rewrites,
                    parts[k - 1].rewrites);
    }
  }

  /** Over all sessions the events of a mode count what the simulator counts: its stable, busting
      and non-eligible rewrites, and how far back they reach. */
  lemma {:induction false} EventsCountTheRewrites(job: Job, files: seq<SessionFile>)
    ensures Counted(AllEvents(job, files), AllFiles(Parts(job, files)).rewrites)
  {
    var lists, parts := EventLists(job, files), Parts(job, files);
    forall f | 0 <= f < |lists|
      ensures Counted(lists[f], parts[f].rewrites)
    {
      FileCounted(job, files[f]);
    }
    JoinedCounted(lists, parts, |files|);
  }

  /** So with a positive cap the collector reports the first rewrites, up to the cap, and when the
      cap is not exceeded its flags add up to the simulator's counters. */
  lemma {:induction false} CollectorAgrees(job: Job, files: seq<SessionFile>, cap: int)
    requires cap > 0
    ensures var counters := AllFiles(Parts(job, files)).rewrites;
            var events := CollectedEvents(job, files, cap);
            && events <= AllEvents(job, files)
            && |events| == (if counters.reach.all <= cap then counters.reach.all else cap)
            && (counters.reach.all <= cap ==> Counted(events, counters))
  {
    EventsCountTheRewrites(job, files);
  }

  // ----- Without a positive cap -----

  /** A cap that asks for no events gets one exactly when the simulator counts a rewrite in the first
      session that can be replayed, and none otherwise. Later sessions are never looked at. */
  lemma NoCapCollectsExactlyWhen(job: Job, files: seq<SessionFile>, cap: int)
    requires cap <= 0
    ensures var f := FirstReplay(files);
            |CollectedEvents(job, files, cap)|
            == if f < |files| && PartOf(job, files[f]).rewrites.reach.all > 0 then 1 else 0
  {
    var f := FirstReplay(files);
    if f < |files| {
      FileCounted(job, files[f]);
    }
  }

  lemma {:induction false} OneTurnEvents(job: Job, origin: Origin, turn: Turn)
    requires job.mode == TokenMode
    ensures |SessionEvents(job, origin, [turn])| == if job.proxy.forwardToken([turn]) == turn.input then 0 else 1
  {
    var turns := [turn];
    assert turns[..1] == turns;
    assert Context(turns, 0) + turn.input == turn.input;
    var requests := Requests(job.setup, job.proxy, job.mode, turns);
    assert requests[0] == RequestAt(job.setup, job.proxy, job.mode, turns, 0);
    var entries := Entries(job.setup, job.mode, origin, requests);
    assert entries[0].Some? <==> job.proxy.forwardToken([turn]) != turn.input;
    assert Present(entries, 0) == [];
  }

  /** What a note taker makes of a session of one turn. */
  lemma {:induction false} NotedTurnEvents(setup: Setup, compress: (seq<Turn>, seq<Message>) -> seq<Message>,
                                           note: nat -> Message, origin: Origin, turn: Turn)
    ensures |SessionEvents(NoteTaker(setup, compress, note), origin, [turn])|
         == if turn.input == Noted(turn.input, note(1)) then 0 else 1
  {
    var job := NoteTaker(setup, compress, note);
    assert Conversation([turn], 0) == turn.input;
    assert job.proxy.forwardToken([turn]) == Noted(turn.input, note(1));
    OneTurnEvents(job, origin, turn);
  }

  function OneTurnFile(origin: Origin, turn: Turn): SessionFile {
    SessionFile(origin.sessionId, origin.project, Some([turn]))
  }

  /** A session with a rewrite yields an event although the cap is 0. */
  lemma ZeroCapYieldsOne(setup: Setup, compress: (seq<Turn>, seq<Message>) -> seq<Message>, note: nat -> Message,
                         origin: Origin, turn: Turn)
    requires turn.input != [] && turn.input[0] != note(1)
    ensures |CollectedEvents(NoteTaker(setup, compress, note), [OneTurnFile(origin, turn)], 0)| == 1
  {
    var job, files := NoteTaker(setup, compress, note), [OneTurnFile(origin, turn)];
    NotedTurnEvents(setup, compress, note, origin, turn);
    assert Noted(turn.input, note(1))[0] != turn.input[0];
    NoCapCollectsExactlyWhen(job, files, 0);
    FirstReplayIs(files, 0);
  }

  /** And a session that is all notes already makes the cap hold, although there is an event to collect. */
  lemma ZeroCapYieldsNone(setup: Setup, compress: (seq<Turn>, seq<Message>) -> seq<Message>, note: nat -> Message,
                          origin: Origin, quiet: Turn, turn: Turn)
    requires quiet.input == [note(1)] && turn.input != [] && turn.input[0] != note(1)
    ensures var files := [OneTurnFile(origin, quiet), OneTurnFile(origin, turn)];
            && CollectedEvents(NoteTaker(setup, compress, note), files, 0) == []
            && AllEvents(NoteTaker(setup, compress, note), files) != []
  {
    var job := NoteTaker(setup, compress, note);
    var files := [OneTurnFile(origin, quiet), OneTurnFile(origin, turn)];
    NotedTurnEvents(setup, compress, note, origin, quiet);
    NotedTurnEvents(setup, compress, note, origin, turn);
    assert Noted(quiet.input, note(1)) == quiet.input;
    assert Noted(turn.input, note(1))[0] != turn.input[0];
    NoCapCollectsExactlyWhen(job, files, 0);
    FirstReplayIs(files, 0);
    var lists := EventLists(job, files);
    assert lists[1] == FileEvents(job, files[1]);
    assert Joined(lists, 2) == Joined(lists, 1) + lists[1];
  }
}
