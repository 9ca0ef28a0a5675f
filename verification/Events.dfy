/** What the event collector and the bust tracer share: the state of their loops, where two
    requests first differ, and lists of events that stop at a cap. */
module Events {
  import opened Messages
  import opened Replay
  import opened Simulator
  import opened Checkpoints

  /** Turn `i` is about to begin: the contexts are those of the conversation so far, and the
      request of turn `i - 1` is pending. */
  ghost predicate AtTurn(job: Job, turns: seq<Turn>, i: nat, state: LoopState)
    requires i <= |turns|
  {
    match state
    case LoopState(carried, pending, previous) =>
      && CarriedInto(job.setup, job.proxy, job.mode, turns, i, carried)
      && Lagging(Requests(job.setup, job.proxy, job.mode, turns), i, pending, previous)
  }

  /** Where `current` first departs from `previous`; the end of the shorter one counts. */
  function FirstDifference(previous: seq<Message>, current: seq<Message>): Option<nat> {
    if previous == current then None else Some(CommonPrefix(previous, current))
  }

  /** The first difference is the only index up to which the requests agree and at which they do not. */
  lemma {:induction false} FirstDifferenceIsLeast(previous: seq<Message>, current: seq<Message>, k: nat)
    ensures FirstDifference(previous, current) == Some(k)
       <==> && k <= |previous| && k <= |current| && (k < |previous| || k < |current|)
            && previous[..k] == current[..k]
            && (k < |previous| && k < |current| ==> previous[k] != current[k])
  {
    if k <= |previous| && k <= |current| && previous != current {
      var c := CommonPrefix(previous, current);
      CommonPrefixGreatest(previous, current, k);
      assert previous[..|previous|] == previous && current[..|current|] == current;
      if k < c && previous[..k] == current[..k] {
        assert previous[..c][k] == current[..c][k];
      }
    }
    if k == |previous| == |current| && previous[..k] == current[..k] {
      assert previous == previous[..k] == current[..k] == current;
    }
  }

  /** A request that does not extend the previous one departs from it strictly inside. */
  lemma {:induction false} BreakIsInside(previous: seq<Message>, current: seq<Message>)
    requires !(previous <= current)
    ensures FirstDifference(previous, current).Some?
    ensures FirstDifference(previous, current).value < |previous|
    ensures FirstDifference(previous, current).value <= |current|
  {
    assert previous[..|previous|] == previous;
  }

  /** Walks both requests in step, as `zip` does. */
  method FirstDiffIndex(previous: seq<Message>, current: seq<Message>) returns (index: Option<nat>)
    ensures index == FirstDifference(previous, current)
  {
    var i := 0;
    while i < |previous| && i < |current|
      invariant i <= |previous| && i <= |current|
      invariant previous[..i] == current[..i]
    {
      if previous[i] != current[i] {
        FirstDifferenceIsLeast(previous, current, i);
        return Some(i);
      }
      i := i + 1;
    }
    if |previous| != |current| {
      FirstDifferenceIsLeast(previous, current, i);
      return Some(i);
    }
    assert previous == previous[..i] == current[..i] == current;
    index := None;
  }

  // ----- Event lists -----

  /** The events among the first `k` entries, in order. */
  function Present<E>(entries: seq<Option<E>>, k: nat): seq<E>
    requires k <= |entries|
  {
    if k == 0 then []
    else Present(entries, k - 1) + if entries[k - 1].Some? then [entries[k - 1].value] else []
  }

  /** The first `k` lists one after the other. */
  function Joined<E>(lists: seq<seq<E>>, k: nat): seq<E>
    requires k <= |lists|
  {
    if k == 0 then [] else Joined(lists, k - 1) + lists[k - 1]
  }

  lemma {:induction false} PresentGrows<E>(entries: seq<Option<E>>, j: nat, k: nat)
    requires j <= k <= |entries|
    ensures Present(entries, j) <= Present(entries, k)
  {
    if j < k {
      PresentGrows(entries, j, k - 1);
    }
  }

  lemma {:induction false} JoinedGrows<E>(lists: seq<seq<E>>, j: nat, k: nat)
    requires j <= k <= |lists|
    ensures Joined(lists, j) <= Joined(lists, k)
  {
    if j < k {
      JoinedGrows(lists, j, k - 1);
    }
  }

  /** All events, or as many of the first as there is room for. The cap is looked at only once an
      event has been recorded, so the first event always finds room. */
  function Capped<E>(events: seq<E>, room: int): seq<E> {
    var limit := if room < 1 then 1 else room;
    if |events| <= limit then events else events[..limit]
  }

  /** A list that fills the room is all that will be recorded of any longer list. */
  lemma CappedOnceFull<E>(events: seq<E>, all: seq<E>, room: int)
    requires events <= all && |events| == if room < 1 then 1 else room
    ensures events == Capped(all, room)
  {
  }

  /** Going on with the room that is left is the same as capping the whole. */
  lemma CappedInParts<E>(events: seq<E>, more: seq<E>, room: int)
    requires events == [] || |events| < room
    ensures events + Capped(more, room - |events|) == Capped(events + more, room)
  {
  }

  // ----- Loops that stop at a cap -----

  function Recorded<E>(entry: Option<E>): seq<E> {
    match entry
    case Some(event) => [event]
    case None => []
  }

  /** A loop over entries has recorded all so far and still has room. */
  ghost predicate Scanned<E>(events: seq<E>, entries: seq<Option<E>>, i: nat, room: int) {
    i <= |entries| && events == Present(entries, i) && (events == [] || |events| < room)
  }

  lemma {:induction false} ScanOne<E>(events: seq<E>, entries: seq<Option<E>>, i: nat, room: int, events': seq<E>)
    requires i < |entries| && Scanned(events, entries, i, room) && events' == events + Recorded(entries[i])
    ensures entries[i].Some? && |events'| >= room ==> events' == Capped(Present(entries, |entries|), room)
    ensures !(entries[i].Some? && |events'| >= room) ==> Scanned(events', entries, i + 1, room)
  {
    if entries[i].Some? && |events'| >= room {
      PresentGrows(entries, i + 1, |entries|);
      CappedOnceFull(Present(entries, i + 1), Present(entries, |entries|), room);
    }
  }

  lemma ScannedAll<E>(events: seq<E>, entries: seq<Option<E>>, room: int)
    requires Scanned(events, entries, |entries|, room)
    ensures events == Capped(Present(entries, |entries|), room)
  {
  }

  /** A loop over lists has gathered all so far and still has room. */
  ghost predicate Gathered<E>(events: seq<E>, lists: seq<seq<E>>, f: nat, room: int) {
    f <= |lists| && events == Joined(lists, f) && (events == [] || |events| < room)
  }

  lemma {:induction false} GatherOne<E>(events: seq<E>, lists: seq<seq<E>>, f: nat, room: int, found: seq<E>)
    requires f < |lists| && Gathered(events, lists, f, room)
    requires found == Capped(lists[f], room - |events|)
    ensures if found != [] && |found| >= room - |events|
            then events + found == Capped(Joined(lists, |lists|), room)
            else Gathered(events + found, lists, f + 1, room)
  {
    CappedInParts(events, lists[f], room);
    if found != [] && |found| >= room - |events| {
      JoinedGrows(lists, f + 1, |lists|);
      CappedOnceFull(events + found, Joined(lists, |lists|), room);
    }
  }

  lemma GatheredAll<E>(events: seq<E>, lists: seq<seq<E>>, room: int)
    requires Gathered(events, lists, |lists|, room)
    ensures events == Capped(Joined(lists, |lists|), room)
  {
  }

  /** The end of a request, as reports show it. */
  function LastFour(messages: seq<Message>): (tail: seq<Message>)
    ensures |tail| == if |messages| < 4 then |messages| else 4
    ensures forall i {:trigger tail[i]} :: 0 <= i < |tail| ==> tail[i] == messages[|messages| - |tail| + i]
  {
    if |messages| <= 4 then messages else messages[|messages| - 4..]
  }

  // ----- A proxy that rewrites -----

  /** A note in place of every message. */
  function Noted(messages: seq<Message>, note: Message): (noted: seq<Message>)
    ensures |noted| == |messages|
    ensures forall i {:trigger noted[i]} :: 0 <= i < |noted| ==> noted[i] == note
  {
    seq(|messages|, i => note)
  }

  /** A token mode that puts the note of the turn in place of every message of the conversation. */
  function NoteTaker(setup: Setup, compress: (seq<Turn>, seq<Message>) -> seq<Message>, note: nat -> Message): Job {
    var forwardToken := (history: seq<Turn>) =>
      if history == [] then [] else Noted(Conversation(history, |history| - 1), note(|history|));
    Job(setup, Proxy(forwardToken, compress), TokenMode, None)
  }
}
