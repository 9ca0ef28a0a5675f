/** Reading a session transcript: the streaming loader, and the segmentation of the event log it computes. */
module Loader {
  import opened Messages
  import opened Replay

  datatype Usage = Usage(output: int, input: int, cacheRead: int, cacheWrite: int)

  /** An event of the log. An absent request id is the empty one, an absent timestamp the earliest,
      and absent usage counts are 0; a timestamp or a count that cannot be read is `None`. */
  datatype Event = Event(
    kind: string,
    message: Option<Message>,
    requestId: string,
    model: string,
    timestamp: Option<int>,
    usage: Option<Usage>
  )

  /** A line that is blank or not JSON is passed over. */
  datatype Line = PassedOver | NotAnObject | Parsed(event: Event)

  /** How reading ends: with the file, with an error of the file system, or with bytes that are no text. */
  datatype Ending = AtEnd | ReadError | NotText

  /** A transcript as read: the lines, and what happens after them. */
  datatype Log = Log(lines: seq<Line>, ending: Ending)

  /** What the loader acts on: a user message, or one event of an assistant's reply to a request. */
  datatype Signal =
    | User(message: Message)
    | Reply(requestId: string, model: string, timestamp: int, blocks: seq<Json>, usage: Usage)

  function Objects(items: seq<Json>): seq<Json> {
    if items == [] then []
    else (if items[0].Object? then [items[0]] else []) + Objects(items[1..])
  }

  /** `_assistant_blocks_from_content` */
  function AssistantBlocks(content: Option<Json>): seq<Json> {
    match content
    case Some(Text(text)) => if text == "" then [] else [Object(map["type" := Text("text"), "text" := Text(text)])]
    case Some(List(items)) => Objects(items)
    case _ => []
  }

  predicate IsInput(event: Event) {
    event.kind == "user" && event.message.Some? && event.message.value.Get("role") == Some(Text("user"))
  }

  predicate IsReply(event: Event) {
    && event.kind == "assistant" && event.message.Some?
    && event.message.value.Get("role") == Some(Text("assistant")) && event.requestId != ""
  }

  /** A line the loader does not survive. */
  predicate Raises(line: Line) {
    match line
    case PassedOver => false
    case NotAnObject => true
    case Parsed(event) => IsReply(event) && (event.timestamp.None? || event.usage.None?)
  }

  /** A line of another kind is no signal. */
  function ReadLine(line: Line): Option<Signal> {
    match line
    case PassedOver => None
    case NotAnObject => None
    case Parsed(event) =>
      if IsInput(event) then Some(User(event.message.value))
      else if IsReply(event) && !Raises(line) then
        Some(Reply(event.requestId, event.model, event.timestamp.value,
                   AssistantBlocks(event.message.value.Get("content")), event.usage.value))
      else None
  }

  /** The signals of a log, in order. */
  function Signals<L>(lines: seq<L>, read: L -> Option<Signal>): seq<Signal> {
    if lines == [] then []
    else
      var before := Signals(lines[..|lines| - 1], read);
      match read(lines[|lines| - 1])
      case Some(signal) => before + [signal]
      case None => before
  }

  lemma {:induction false} SignalsPrefix<L>(lines: seq<L>, read: L -> Option<Signal>, j: nat)
    requires j <= |lines|
    ensures Signals(lines[..j], read) <= Signals(lines, read)
    decreases |lines| - j
  {
    if j < |lines| {
      SignalsPrefix(lines, read, j + 1);
      assert lines[..j + 1][..j] == lines[..j];
    } else {
      assert lines[..j] == lines;
    }
  }

  // ----- What one run of assistant events amounts to -----

  function AllBlocks(run: seq<Signal>): seq<Json> {
    if run == [] then []
    else AllBlocks(run[..|run| - 1]) + if run[|run| - 1].Reply? then run[|run| - 1].blocks else []
  }

  /** The elements of `xs` that do not occur earlier in it, in order. */
  function Firsts<T(==)>(xs: seq<T>): seq<T> {
    if xs == [] then []
    else
      var init, last := xs[..|xs| - 1], xs[|xs| - 1];
      if last in init then Firsts(init) else Firsts(init) + [last]
  }

  function AtLeast(a: int, b: int): int {
    if a < b then b else a
  }

  function Raise(m: Usage, u: Usage): Usage {
    Usage(AtLeast(m.output, u.output), AtLeast(m.input, u.input),
          AtLeast(m.cacheRead, u.cacheRead), AtLeast(m.cacheWrite, u.cacheWrite))
  }

  /** The largest value reported in each usage field, and at least 0. */
  function MaxUsage(run: seq<Signal>): Usage {
    if run == [] then Usage(0, 0, 0, 0)
    else
      var m := MaxUsage(run[..|run| - 1]);
      if run[|run| - 1].Reply? then Raise(m, run[|run| - 1].usage) else m
  }

  predicate Dominates(m: Usage, u: Usage) {
    m.output >= u.output && m.input >= u.input && m.cacheRead >= u.cacheRead && m.cacheWrite >= u.cacheWrite
  }

  ghost predicate DominatesRun(m: Usage, run: seq<Signal>) {
    forall k :: 0 <= k < |run| && run[k].Reply? ==> Dominates(m, run[k].usage)
  }

  lemma DominatesOneMore(m: Usage, run: seq<Signal>, last: Signal)
    ensures DominatesRun(m, run + [last]) <==> DominatesRun(m, run) && (last.Reply? ==> Dominates(m, last.usage))
  {
    assert forall k :: 0 <= k < |run + [last]| ==> (run + [last])[k] == if k < |run| then run[k] else last;
    assert forall k :: 0 <= k < |run| ==> run[k] == (run + [last])[k];
    assert (run + [last])[|run|] == last;
  }

  /** A usage lies above everything a run reports exactly when it lies above the run's maximum. */
  lemma {:induction false} MaxUsageIsLeastBound(run: seq<Signal>, bound: Usage)
    ensures Dominates(bound, MaxUsage(run))
       <==> Dominates(bound, Usage(0, 0, 0, 0)) && DominatesRun(bound, run)
  {
    if run != [] {
      var init, last := run[..|run| - 1], run[|run| - 1];
      MaxUsageIsLeastBound(init, bound);
      DominatesOneMore(bound, init, last);
      assert run == init + [last];
    }
  }

  function IndexOf<T(==)>(xs: seq<T>, x: T): (k: nat)
    requires x in xs
    ensures k < |xs| && xs[k] == x && x !in xs[..k]
  {
    if x in xs[..|xs| - 1] then
      var k := IndexOf(xs[..|xs| - 1], x);
      assert xs[..|xs| - 1][..k] == xs[..k];
      k
    else
      assert xs == xs[..|xs| - 1] + [xs[|xs| - 1]];
      |xs| - 1
  }

  lemma {:induction false} FirstsKeepsElements<T>(xs: seq<T>, x: T)
    ensures x in Firsts(xs) <==> x in xs
  {
    if xs != [] {
      FirstsKeepsElements(xs[..|xs| - 1], x);
      assert xs == xs[..|xs| - 1] + [xs[|xs| - 1]];
    }
  }

  /** `Firsts` keeps every element once, in the order of first occurrence. */
  lemma {:induction false} FirstsInOrder<T>(xs: seq<T>, i: nat, j: nat)
    requires i < j < |Firsts(xs)|
    ensures var a, b := Firsts(xs)[i], Firsts(xs)[j];
            a in xs && b in xs && IndexOf(xs, a) < IndexOf(xs, b)
  {
    var a, b := Firsts(xs)[i], Firsts(xs)[j];
    var init, last := xs[..|xs| - 1], xs[|xs| - 1];
    FirstsKeepsElements(xs, a);
    FirstsKeepsElements(xs, b);
    assert a in Firsts(init);
    FirstsKeepsElements(init, a);
    FirstsKeepsElements(init, b);
    if j < |Firsts(init)| {
      assert b in Firsts(init);
      FirstsInOrder(init, i, j);
    }
  }

  datatype LoadedTurn = LoadedTurn(turn: Turn, observed: Usage)

  function AssistantMessage(blocks: seq<Json>): Message {
    Message(map["role" := Text("assistant"), "content" := if blocks != [] then List(blocks) else Text("")])
  }

  function MakeTurn(run: seq<Signal>, input: seq<Message>): LoadedTurn
    requires run != [] && run[0].Reply?
  {
    var usage := MaxUsage(run);
    LoadedTurn(
      Turn(run[0].requestId, run[0].model, run[0].timestamp, input, AssistantMessage(Firsts(AllBlocks(run))),
           if usage.output < 0 then 0 else usage.output),
      usage)
  }

  // ----- Segmentation -----

  predicate SameRun(a: Signal, b: Signal) {
    a.Reply? && b.Reply? && a.requestId == b.requestId
  }

  /** Where the run that starts at `at` ends. */
  function RunEnd(signals: seq<Signal>, at: nat, from: nat): (hi: nat)
    requires at < from <= |signals|
    ensures from <= hi <= |signals|
    ensures forall k :: from <= k < hi ==> SameRun(signals[at], signals[k])
    ensures hi < |signals| ==> !SameRun(signals[at], signals[hi])
    decreases |signals| - from
  {
    if from < |signals| && SameRun(signals[at], signals[from]) then RunEnd(signals, at, from + 1) else from
  }

  /** The user message directly before position `at`, if that is what precedes it. */
  function Preceding(signals: seq<Signal>, at: nat): seq<Message>
    requires at <= |signals|
  {
    if at > 0 && signals[at - 1].User? then [signals[at - 1].message] else []
  }

  datatype Run = Run(lo: nat, hi: nat)

  function Runs(signals: seq<Signal>, at: nat): (runs: seq<Run>)
    requires at <= |signals|
    ensures forall k {:trigger runs[k]} :: 0 <= k < |runs| ==>
      at <= runs[k].lo < runs[k].hi <= |signals| && signals[runs[k].lo].Reply?
    decreases |signals| - at
  {
    if at == |signals| then []
    else if signals[at].User? then Runs(signals, at + 1)
    else [Run(at, RunEnd(signals, at, at + 1))] + Runs(signals, RunEnd(signals, at, at + 1))
  }

  /** One turn per run, each with the user message directly before it. */
  function TurnsFrom(signals: seq<Signal>, at: nat): seq<LoadedTurn>
    requires at <= |signals|
    decreases |signals| - at
  {
    if at == |signals| then []
    else if signals[at].User? then TurnsFrom(signals, at + 1)
    else
      var hi := RunEnd(signals, at, at + 1);
      [MakeTurn(signals[at..hi], Preceding(signals, at))] + TurnsFrom(signals, hi)
  }

  /** A longest stretch of assistant events for one request with nothing else between them. */
  ghost predicate IsMaximalRun(signals: seq<Signal>, lo: nat, hi: nat) {
    && lo < hi <= |signals|
    && (forall k :: lo <= k < hi ==> SameRun(signals[lo], signals[k]))
    && (lo > 0 ==> !SameRun(signals[lo - 1], signals[lo]))
    && (hi < |signals| ==> !SameRun(signals[hi - 1], signals[hi]))
  }

  ghost predicate AtBoundary(signals: seq<Signal>, at: nat)
    requires at <= |signals|
  {
    0 < at < |signals| ==> !SameRun(signals[at - 1], signals[at])
  }

  lemma RunEndIsMaximal(signals: seq<Signal>, at: nat)
    requires at < |signals| && AtBoundary(signals, at) && signals[at].Reply?
    ensures IsMaximalRun(signals, at, RunEnd(signals, at, at + 1))
  {
    var end := RunEnd(signals, at, at + 1);
    if end < |signals| {
      assert SameRun(signals[at], signals[end - 1]) && !SameRun(signals[at], signals[end]);
    }
  }

  lemma RunGoesOn(signals: seq<Signal>, lo: nat, k: nat, end: nat)
    requires IsMaximalRun(signals, lo, end) && lo < k <= end
    ensures k < end ==> SameRun(signals[k - 1], signals[k])
  {
    if k < end {
      assert SameRun(signals[lo], signals[k - 1]) && SameRun(signals[lo], signals[k]);
    }
  }

  lemma MaximalRunsEndTogether(signals: seq<Signal>, lo: nat, hi: nat, end: nat)
    requires IsMaximalRun(signals, lo, hi) && IsMaximalRun(signals, lo, end)
    ensures hi == end
  {
    var first := if hi < end then hi else end;
    RunGoesOn(signals, lo, first, hi);
    RunGoesOn(signals, lo, first, end);
  }

  lemma FirstRunIsMaximal(signals: seq<Signal>, at: nat, hi: nat)
    requires at < |signals| && AtBoundary(signals, at) && signals[at].Reply?
    ensures IsMaximalRun(signals, at, hi) <==> hi == RunEnd(signals, at, at + 1)
  {
    RunEndIsMaximal(signals, at);
    if IsMaximalRun(signals, at, hi) {
      MaximalRunsEndTogether(signals, at, hi, RunEnd(signals, at, at + 1));
    }
  }

  lemma NoRunAtUser(signals: seq<Signal>, at: nat, hi: nat)
    requires at < |signals| && signals[at].User?
    ensures !IsMaximalRun(signals, at, hi) && Run(at, hi) !in Runs(signals, at)
  {
    assert !SameRun(signals[at], signals[at]);
  }

  /** The runs from a reply on are its own run and those after it. */
  lemma RunsFromReply(signals: seq<Signal>, at: nat, run: Run)
    requires at < |signals| && signals[at].Reply?
    ensures var end := RunEnd(signals, at, at + 1);
            run in Runs(signals, at) <==> run == Run(at, end) || run in Runs(signals, end)
  {
    var end := RunEnd(signals, at, at + 1);
    assert Runs(signals, at) == [Run(at, end)] + Runs(signals, end);
  }

  lemma NotBefore(signals: seq<Signal>, at: nat, run: Run)
    requires at <= |signals| && run in Runs(signals, at)
    ensures at <= run.lo
  {
  }

  lemma NoRunInside(signals: seq<Signal>, at: nat, lo: nat, hi: nat)
    requires at < lo < |signals| && signals[at].Reply? && lo < RunEnd(signals, at, at + 1)
    ensures !IsMaximalRun(signals, lo, hi)
  {
    assert SameRun(signals[at], signals[lo]) && (at + 1 < lo ==> SameRun(signals[at], signals[lo - 1]));
  }

  lemma BoundaryAtEnd(signals: seq<Signal>, at: nat)
    requires at < |signals| && signals[at].Reply?
    ensures AtBoundary(signals, RunEnd(signals, at, at + 1))
  {
    var end := RunEnd(signals, at, at + 1);
    if end < |signals| {
      assert SameRun(signals[at], signals[end - 1]) && !SameRun(signals[at], signals[end]);
    }
  }

  /** `Runs` lists exactly the maximal runs. */
  lemma {:induction false} RunsAreTheMaximalRuns(signals: seq<Signal>, at: nat, lo: nat, hi: nat)
    requires at <= |signals| && AtBoundary(signals, at) && at <= lo
    ensures IsMaximalRun(signals, lo, hi) <==> Run(lo, hi) in Runs(signals, at)
    decreases |signals| - at
  {
    if at < |signals| && signals[at].User? {
      if lo > at {
        RunsAreTheMaximalRuns(signals, at + 1, lo, hi);
      } else {
        NoRunAtUser(signals, at, hi);
      }
    } else if at < |signals| {
      var end := RunEnd(signals, at, at + 1);
      RunsFromReply(signals, at, Run(lo, hi));
      if lo >= end {
        BoundaryAtEnd(signals, at);
        RunsAreTheMaximalRuns(signals, end, lo, hi);
      } else {
        if Run(lo, hi) in Runs(signals, end) {
          NotBefore(signals, end, Run(lo, hi));
        }
        if lo > at {
          NoRunInside(signals, at, lo, hi);
        } else {
          FirstRunIsMaximal(signals, at, hi);
        }
      }
    }
  }

  lemma {:induction false} OneTurnPerRun(signals: seq<Signal>, at: nat)
    requires at <= |signals|
    ensures |TurnsFrom(signals, at)| == |Runs(signals, at)|
    decreases |signals| - at
  {
    if at < |signals| {
      OneTurnPerRun(signals, if signals[at].User? then at + 1 else RunEnd(signals, at, at + 1));
    }
  }

  /** The turns correspond to the runs one for one, in order. */
  lemma {:induction false} TurnsFollowRuns(signals: seq<Signal>, at: nat, k: nat)
    requires at <= |signals| && k < |Runs(signals, at)|
    ensures |TurnsFrom(signals, at)| == |Runs(signals, at)|
    ensures var run := Runs(signals, at)[k];
            TurnsFrom(signals, at)[k] == MakeTurn(signals[run.lo..run.hi], Preceding(signals, run.lo))
    ensures k > 0 ==> Runs(signals, at)[k - 1].hi <= Runs(signals, at)[k].lo
    decreases |signals| - at
  {
    OneTurnPerRun(signals, at);
    if signals[at].User? {
      TurnsFollowRuns(signals, at + 1, k);
    } else if k > 0 {
      TurnsFollowRuns(signals, RunEnd(signals, at, at + 1), k - 1);
    }
  }

  // ----- The streaming loader -----

  datatype Group = Group(requestId: string, model: string, timestamp: int, blocks: seq<Json>, seen: set<Json>,
                         usage: Usage)

  /** Keeps the blocks not seen before. */
  function KeepNew<T(==)>(kept: seq<T>, seen: set<T>, blocks: seq<T>): (seq<T>, set<T>) {
    if blocks == [] then (kept, seen)
    else
      var (k, s) := KeepNew(kept, seen, blocks[..|blocks| - 1]);
      var last := blocks[|blocks| - 1];
      if last in s then (k, s) else (k + [last], s + {last})
  }

  /** The group after one more event. */
  function Extended(group: Group, event: Signal): Group
    requires event.Reply?
  {
    var (blocks, seen) := KeepNew(group.blocks, group.seen, event.blocks);
    group.(blocks := blocks, seen := seen, usage := Raise(group.usage, event.usage))
  }

  function Opened(event: Signal): Group
    requires event.Reply?
  {
    Group(event.requestId, event.model, event.timestamp, [], {}, Usage(0, 0, 0, 0))
  }

  predicate AllReplies(run: seq<Signal>) {
    forall k :: 0 <= k < |run| ==> run[k].Reply?
  }

  /** The group that holds a run. */
  function GroupOf(run: seq<Signal>): Group
    requires run != [] && AllReplies(run)
  {
    var last := run[|run| - 1];
    Extended(if |run| == 1 then Opened(last) else GroupOf(run[..|run| - 1]), last)
  }

  function Elements<T(==)>(xs: seq<T>): set<T> {
    set x | x in xs
  }

  lemma {:induction false} FirstsStep<T>(xs: seq<T>, last: T)
    ensures Firsts(xs + [last]) == if last in xs then Firsts(xs) else Firsts(xs) + [last]
    ensures Elements(xs + [last]) == Elements(xs) + {last}
  {
    assert (xs + [last])[..|xs|] == xs;
  }

  lemma {:induction false} KeepNewIsFirsts<T>(xs: seq<T>, ys: seq<T>)
    ensures KeepNew(Firsts(xs), Elements(xs), ys) == (Firsts(xs + ys), Elements(xs + ys))
  {
    if ys == [] {
      assert xs + ys == xs;
    } else {
      var init, last := ys[..|ys| - 1], ys[|ys| - 1];
      KeepNewIsFirsts(xs, init);
      FirstsStep(xs + init, last);
      assert xs + ys == xs + init + [last];
      assert last in Elements(xs + init) <==> last in xs + init;
      assert KeepNew(Firsts(xs), Elements(xs), ys)
          == if last in Elements(xs + init) then (Firsts(xs + init), Elements(xs + init))
             else (Firsts(xs + init) + [last], Elements(xs + init) + {last});
      if last in xs + init {
        assert Elements(xs + init) + {last} == Elements(xs + init);
      }
    }
  }

  /** The deduplicating, maximising group is the run's first occurrences and its largest usage. */
  lemma {:induction false} GroupHoldsRun(run: seq<Signal>)
    requires run != [] && AllReplies(run)
    ensures GroupOf(run) == Group(run[0].requestId, run[0].model, run[0].timestamp,
                                  Firsts(AllBlocks(run)), Elements(AllBlocks(run)), MaxUsage(run))
  {
    var init, last := run[..|run| - 1], run[|run| - 1];
    KeepNewIsFirsts(AllBlocks(init), last.blocks);
    if init == [] {
      assert AllBlocks(init) == [] && Elements(AllBlocks(init)) == {};
    } else {
      GroupHoldsRun(init);
    }
  }

  method AddBlocks(kept: seq<Json>, seen: set<Json>, blocks: seq<Json>) returns (kept': seq<Json>, seen': set<Json>)
    ensures (kept', seen') == KeepNew(kept, seen, blocks)
  {
    kept', seen' := kept, seen;
    for i := 0 to |blocks|
      invariant (kept', seen') == KeepNew(kept, seen, blocks[..i])
    {
      assert blocks[..i + 1][..i] == blocks[..i];
      if blocks[i] !in seen' {
        seen' := seen' + {blocks[i]};
        kept' := kept' + [blocks[i]];
      }
    }
    assert blocks[..|blocks|] == blocks;
  }

  /** Takes one assistant event into a group. */
  method ExtendGroup(group: Group, event: Signal) returns (group': Group)
    requires event.Reply?
    ensures group' == Extended(group, event)
  {
    var blocks, seen := AddBlocks(group.blocks, group.seen, event.blocks);
    group' := group.(blocks := blocks, seen := seen, usage := Raise(group.usage, event.usage));
  }

  /** `_finalize_group` */
  function FinalizeGroup(group: Option<Group>, pending: seq<Message>): seq<LoadedTurn> {
    match group
    case None => []
    case Some(g) =>
      [LoadedTurn(Turn(g.requestId, g.model, g.timestamp, pending, AssistantMessage(g.blocks),
                       if g.usage.output < 0 then 0 else g.usage.output), g.usage)]
  }

  lemma FinalizedRun(run: seq<Signal>, pending: seq<Message>)
    requires run != [] && AllReplies(run)
    ensures FinalizeGroup(Some(GroupOf(run)), pending) == [MakeTurn(run, pending)]
  {
    GroupHoldsRun(run);
  }

  /** The loader's state after the first `i` signals; an open group started at `lo`. */
  ghost predicate Streaming(signals: seq<Signal>, i: nat, lo: nat, turns: seq<LoadedTurn>,
                            group: Option<Group>, pending: seq<Message>)
    requires lo <= i <= |signals|
  {
    match group
    case None =>
      && turns + TurnsFrom(signals, lo) == TurnsFrom(signals, 0) && pending == Preceding(signals, lo)
      && lo == i && (i > 0 ==> signals[i - 1].User?)
    case Some(g) =>
      && turns + TurnsFrom(signals, lo) == TurnsFrom(signals, 0) && pending == Preceding(signals, lo)
      && lo < i <= RunEnd(signals, lo, lo + 1) && AllReplies(signals[lo..i]) && g == GroupOf(signals[lo..i])
  }

  lemma TurnOfRun(signals: seq<Signal>, lo: nat)
    requires lo < |signals| && signals[lo].Reply?
    ensures var hi := RunEnd(signals, lo, lo + 1);
            TurnsFrom(signals, lo) == [MakeTurn(signals[lo..hi], Preceding(signals, lo))] + TurnsFrom(signals, hi)
  {
  }

  lemma MoveOver<T>(before: seq<T>, moved: seq<T>, after: seq<T>, all: seq<T>, rest: seq<T>)
    requires before + rest == all && rest == moved + after
    ensures before + moved + after == all
  {
    assert before + moved + after == before + (moved + after);
  }

  lemma RunIsOver(signals: seq<Signal>, lo: nat, i: nat)
    requires lo < i <= |signals| && signals[lo].Reply? && i <= RunEnd(signals, lo, lo + 1)
    requires i < |signals| ==> !SameRun(signals[lo], signals[i])
    ensures i == RunEnd(signals, lo, lo + 1) && signals[i - 1].Reply?
  {
    assert i - 1 > lo ==> SameRun(signals[lo], signals[i - 1]);
  }

  lemma OpenGroup(signals: seq<Signal>, i: nat, lo: nat, turns: seq<LoadedTurn>, group: Option<Group>,
                  pending: seq<Message>)
    requires lo <= i <= |signals| && Streaming(signals, i, lo, turns, group, pending) && group.Some?
    ensures lo < i && AllReplies(signals[lo..i]) && signals[lo].Reply? && i <= RunEnd(signals, lo, lo + 1)
    ensures group.value == GroupOf(signals[lo..i]) && pending == Preceding(signals, lo)
  {
    assert signals[lo..i][0] == signals[lo];
  }

  lemma GroupEnds(signals: seq<Signal>, i: nat, lo: nat, group: Group, pending: seq<Message>)
    requires lo < i <= |signals| && AllReplies(signals[lo..i]) && signals[lo].Reply? && i == RunEnd(signals, lo, lo + 1)
    requires group == GroupOf(signals[lo..i]) && pending == Preceding(signals, lo)
    ensures TurnsFrom(signals, lo) == FinalizeGroup(Some(group), pending) + TurnsFrom(signals, i)
  {
    FinalizedRun(signals[lo..i], pending);
    TurnOfRun(signals, lo);
  }

  lemma TurnsSoFar(signals: seq<Signal>, i: nat, lo: nat, turns: seq<LoadedTurn>, group: Option<Group>,
                   pending: seq<Message>)
    requires lo <= i <= |signals| && Streaming(signals, i, lo, turns, group, pending)
    ensures turns + TurnsFrom(signals, lo) == TurnsFrom(signals, 0)
    ensures group.None? ==> lo == i
  {
  }

  /** Closing the open group at the end of its run. */
  lemma {:induction false} CloseGroup(signals: seq<Signal>, i: nat, lo: nat, turns: seq<LoadedTurn>,
                                      group: Option<Group>, pending: seq<Message>)
    requires lo <= i <= |signals| && Streaming(signals, i, lo, turns, group, pending)
    requires group.Some? && i < |signals| ==> !SameRun(signals[lo], signals[i])
    ensures turns + FinalizeGroup(group, pending) + TurnsFrom(signals, i) == TurnsFrom(signals, 0)
    ensures group.Some? ==> signals[i - 1].Reply?
  {
    TurnsSoFar(signals, i, lo, turns, group, pending);
    if group.Some? {
      OpenGroup(signals, i, lo, turns, group, pending);
      RunIsOver(signals, lo, i);
      GroupEnds(signals, i, lo, group.value, pending);
    } else {
      assert FinalizeGroup(group, pending) + TurnsFrom(signals, i) == TurnsFrom(signals, i);
    }
    MoveOver(turns, FinalizeGroup(group, pending), TurnsFrom(signals, i), TurnsFrom(signals, 0),
             TurnsFrom(signals, lo));
  }

  lemma {:induction false} GroupId(run: seq<Signal>)
    requires run != [] && AllReplies(run)
    ensures GroupOf(run).requestId == run[0].requestId
  {
    if |run| > 1 {
      GroupId(run[..|run| - 1]);
    }
  }

  datatype LoaderState = LoaderState(turns: seq<LoadedTurn>, group: Option<Group>, pending: seq<Message>)

  /** A user message closes the open group and becomes the input of the next one. */
  method TakeUser(state: LoaderState, event: Signal, ghost signals: seq<Signal>, ghost i: nat, ghost lo: nat)
    returns (state': LoaderState)
    requires lo <= i < |signals| && signals[i] == event && event.User?
    requires Streaming(signals, i, lo, state.turns, state.group, state.pending)
    ensures Streaming(signals, i + 1, i + 1, state'.turns, state'.group, state'.pending)
  {
    CloseGroup(signals, i, lo, state.turns, state.group, state.pending);
    state' := LoaderState(state.turns + FinalizeGroup(state.group, state.pending), None, [event.message]);
  }

  lemma {:induction false} GroupOfOne(signals: seq<Signal>, i: nat)
    requires i < |signals| && signals[i].Reply?
    ensures AllReplies(signals[i..i + 1]) && GroupOf(signals[i..i + 1]) == Extended(Opened(signals[i]), signals[i])
  {
    assert signals[i..i + 1] == [signals[i]];
  }

  lemma {:induction false} GroupOfNext(signals: seq<Signal>, lo: nat, i: nat)
    requires lo < i < |signals| && AllReplies(signals[lo..i]) && signals[i].Reply?
    ensures AllReplies(signals[lo..i + 1])
    ensures GroupOf(signals[lo..i + 1]) == Extended(GroupOf(signals[lo..i]), signals[i])
  {
    assert signals[lo..i + 1] == signals[lo..i] + [signals[i]];
    assert signals[lo..i + 1][..i - lo] == signals[lo..i];
  }

  /** The first event of a new request: the open group is complete. */
  lemma {:induction false} NewRequest(signals: seq<Signal>, i: nat, lo: nat, turns: seq<LoadedTurn>,
                                      group: Option<Group>, pending: seq<Message>)
    requires lo <= i < |signals| && signals[i].Reply? && Streaming(signals, i, lo, turns, group, pending)
    requires group.Some? ==> group.value.requestId != signals[i].requestId
    ensures turns + FinalizeGroup(group, pending) + TurnsFrom(signals, i) == TurnsFrom(signals, 0)
    ensures Preceding(signals, i) == if group.Some? then [] else pending
  {
    if group.Some? {
      GroupId(signals[lo..i]);
    }
    CloseGroup(signals, i, lo, turns, group, pending);
  }

  /** The next event of the open request: its run goes on. */
  lemma {:induction false} SameRequest(signals: seq<Signal>, i: nat, lo: nat)
    requires lo < i < |signals| && i <= RunEnd(signals, lo, lo + 1)
    requires SameRun(signals[lo], signals[i])
    ensures i < RunEnd(signals, lo, lo + 1)
  {
  }

  /** An assistant event for a new request closes the open group and opens its own. */
  method StartGroup(state: LoaderState, event: Signal, ghost signals: seq<Signal>, ghost i: nat, ghost lo: nat)
    returns (state': LoaderState)
    requires lo <= i < |signals| && signals[i] == event && event.Reply?
    requires Streaming(signals, i, lo, state.turns, state.group, state.pending)
    requires state.group.Some? ==> state.group.value.requestId != event.requestId
    ensures Streaming(signals, i + 1, i, state'.turns, state'.group, state'.pending)
  {
    NewRequest(signals, i, lo, state.turns, state.group, state.pending);
    var group := ExtendGroup(Opened(event), event);
    GroupOfOne(signals, i);
    state' := LoaderState(state.turns + FinalizeGroup(state.group, state.pending), Some(group),
                          if state.group.Some? then [] else state.pending);
  }

  /** An assistant event for the open request joins its group. */
  method JoinGroup(state: LoaderState, event: Signal, ghost signals: seq<Signal>, ghost i: nat, ghost lo: nat)
    returns (state': LoaderState)
    requires lo <= i < |signals| && signals[i] == event && event.Reply?
    requires Streaming(signals, i, lo, state.turns, state.group, state.pending)
    requires state.group.Some? && state.group.value.requestId == event.requestId
    ensures Streaming(signals, i + 1, lo, state'.turns, state'.group, state'.pending)
  {
    GroupId(signals[lo..i]);
    SameRequest(signals, i, lo);
    var group := ExtendGroup(state.group.value, event);
    GroupOfNext(signals, lo, i);
    state' := state.(group := Some(group));
  }

  /** One event of a reply: it belongs to the open group or starts its own. */
  method TakeReply(state: LoaderState, event: Signal, ghost signals: seq<Signal>, ghost i: nat, ghost lo: nat)
    returns (state': LoaderState, ghost lo': nat)
    requires lo <= i < |signals| && signals[i] == event && event.Reply?
    requires Streaming(signals, i, lo, state.turns, state.group, state.pending)
    ensures lo' <= i && Streaming(signals, i + 1, lo', state'.turns, state'.group, state'.pending)
  {
    if state.group.None? || state.group.value.requestId != event.requestId {
      state' := StartGroup(state, event, signals, i, lo);
      lo' := i;
    } else {
      state' := JoinGroup(state, event, signals, i, lo);
      lo' := lo;
    }
  }

  /** The log is over. */
  method Close(state: LoaderState, ghost signals: seq<Signal>, ghost lo: nat) returns (turns: seq<LoadedTurn>)
    requires lo <= |signals| && Streaming(signals, |signals|, lo, state.turns, state.group, state.pending)
    ensures turns == TurnsFrom(signals, 0)
  {
    CloseGroup(signals, |signals|, lo, state.turns, state.group, state.pending);
    turns := state.turns + FinalizeGroup(state.group, state.pending);
    assert TurnsFrom(signals, |signals|) == [];
  }

  /** The next line holds the next signal, or none. */
  lemma {:induction false} NextSignal<L>(lines: seq<L>, read: L -> Option<Signal>, j: nat, i: nat)
    requires j < |lines| && i <= |Signals(lines, read)|
    requires Signals(lines[..j], read) == Signals(lines, read)[..i]
    ensures var signals := Signals(lines, read);
            match read(lines[j])
            case None => Signals(lines[..j + 1], read) == signals[..i]
            case Some(signal) =>
              i < |signals| && signals[i] == signal && Signals(lines[..j + 1], read) == signals[..i + 1]
  {
    assert lines[..j + 1][..j] == lines[..j];
    SignalsPrefix(lines, read, j + 1);
  }

  ghost predicate AnyRaises<L>(lines: seq<L>, raises: L -> bool) {
    exists k :: 0 <= k < |lines| && raises(lines[k])
  }

  lemma {:induction false} RaisesNext<L>(lines: seq<L>, raises: L -> bool, j: nat)
    requires j < |lines|
    ensures AnyRaises(lines[..j + 1], raises) <==> AnyRaises(lines[..j], raises) || raises(lines[j])
    ensures AnyRaises(lines[..j + 1], raises) ==> AnyRaises(lines, raises)
  {
    var a, b := lines[..j], lines[..j + 1];
    assert b == a + [lines[j]] && b[j] == lines[j];
    if AnyRaises(a, raises) {
      var k :| 0 <= k < |a| && raises(a[k]);
      assert b[k] == a[k];
    }
    if AnyRaises(b, raises) {
      var k :| 0 <= k < |b| && raises(b[k]);
      assert lines[k] == b[k] && (k < j ==> a[k] == b[k]);
    }
  }

  /** The loader's state after the first `j` lines, which hold `i` signals. */
  ghost predicate Streamed<L>(lines: seq<L>, read: L -> Option<Signal>, j: nat, i: nat, lo: nat, state: LoaderState)
    requires j <= |lines|
  {
    match state
    case LoaderState(turns, group, pending) =>
      && lo <= i <= |Signals(lines, read)| && Signals(lines[..j], read) == Signals(lines, read)[..i]
      && Streaming(Signals(lines, read), i, lo, turns, group, pending)
  }

  lemma NothingStreamed<L>(lines: seq<L>, read: L -> Option<Signal>)
    ensures Streamed(lines, read, 0, 0, 0, LoaderState([], None, []))
  {
  }

  lemma AllStreamed<L>(lines: seq<L>, read: L -> Option<Signal>, i: nat, lo: nat, state: LoaderState)
    requires Streamed(lines, read, |lines|, i, lo, state)
    ensures lo <= |Signals(lines, read)|
    ensures Streaming(Signals(lines, read), |Signals(lines, read)|, lo, state.turns, state.group, state.pending)
  {
    assert lines[..|lines|] == lines;
  }

  /** Takes the signal of a line, if it has one. */
  method TakeLine<L>(state: LoaderState, line: Option<Signal>, ghost lines: seq<L>, ghost read: L -> Option<Signal>,
                     ghost j: nat, ghost i: nat, ghost lo: nat)
    returns (state': LoaderState, ghost i': nat, ghost lo': nat)
    requires j < |lines| && line == read(lines[j]) && Streamed(lines, read, j, i, lo, state)
    ensures Streamed(lines, read, j + 1, i', lo', state')
  {
    ghost var signals := Signals(lines, read);
    NextSignal(lines, read, j, i);
    match line
    case None =>
      state', i', lo' := state, i, lo;
    case Some(User(message)) =>
      state' := TakeUser(state, User(message), signals, i, lo);
      i', lo' := i + 1, i + 1;
    case Some(reply) =>
      state', lo' := TakeReply(state, reply, signals, i, lo);
      i' := i + 1;
  }

  /** Streams the lines of a log through the loader, up to a line it does not survive. */
  method StreamLines<L>(lines: seq<L>, read: L -> Option<Signal>, raises: L -> bool)
    returns (state: LoaderState, raised: bool, ghost i: nat, ghost lo: nat)
    ensures raised <==> AnyRaises(lines, raises)
    ensures !raised ==> Streamed(lines, read, |lines|, i, lo, state)
  {
    state, raised, i, lo := LoaderState([], None, []), false, 0, 0;
    NothingStreamed(lines, read);
    var j := 0;
    while j < |lines| && !raised
      invariant 0 <= j <= |lines| && !AnyRaises(lines[..j], raises) && (raised ==> AnyRaises(lines, raises))
      invariant Streamed(lines, read, j, i, lo, state)
      decreases !raised, |lines| - j
    {
      RaisesNext(lines, raises, j);
      if raises(lines[j]) {
        raised := true;
      } else {
        state, i, lo := TakeLine(state, read(lines[j]), lines, read, j, i, lo);
        j := j + 1;
      }
    }
    assert !raised ==> lines[..j] == lines;
  }

  /** What becomes of a transcript: the loader raises, it has no replay, or it has turns. */
  datatype Outcome = Raised | NoReplay | Replayed(turns: seq<LoadedTurn>)

  ghost function OutcomeOf(log: Log): Outcome {
    match log
    case Log(lines, ending) =>
      var turns := TurnsFrom(Signals(lines, ReadLine), 0);
      if AnyRaises(lines, Raises) || ending.NotText? then Raised
      else if ending.ReadError? || turns == [] then NoReplay
      else Replayed(turns)
  }

  /** `load_session_replay` */
  method LoadSession(log: Log) returns (outcome: Outcome)
    ensures outcome == OutcomeOf(log)
  {
    var state, raised;
    ghost var i, lo;
    state, raised, i, lo := StreamLines(log.lines, ReadLine, Raises);
    if raised || log.ending.NotText? {
      outcome := Raised;
    } else if log.ending.ReadError? {
      outcome := NoReplay;
    } else {
      AllStreamed(log.lines, ReadLine, i, lo, state);
      var turns := Close(state, Signals(log.lines, ReadLine), lo);
      outcome := if turns == [] then NoReplay else Replayed(turns);
    }
  }
}
