/** Simulating many session files: checkpoints, worker pools, crashes and resumed runs. */
module Checkpoints {
  import opened Messages
  import opened Replay
  import opened Simulator
  import opened Merging

  // ----- Merging summaries -----

  function AddVolume(a: Volume, b: Volume): Volume {
    Volume(a.raw + b.raw, a.forwarded + b.forwarded, a.output + b.output)
  }

  function AddSplit(a: Split, b: Split): Split {
    Split(a.cacheRead + b.cacheRead, a.cacheWrite + b.cacheWrite, a.regular + b.regular)
  }

  function AddCosts(a: CostTotals, b: CostTotals): CostTotals {
    CostTotals(
      InputCosts(a.input.paid + b.input.paid, a.input.cacheRead + b.input.cacheRead,
                 a.input.cacheWrite + b.input.cacheWrite),
      a.paidOutput + b.paidOutput, a.total + b.total)
  }

  function AddCache(a: CacheTurns, b: CacheTurns): CacheTurns {
    CacheTurns(a.eligible + b.eligible, a.busts + b.busts, a.ttlExpiries + b.ttlExpiries)
  }

  function AddRewrites(a: RewriteTurns, b: RewriteTurns): RewriteTurns {
    RewriteTurns(
      Outcomes(a.outcomes.stable + b.outcomes.stable, a.outcomes.busting + b.outcomes.busting,
               a.outcomes.nonEligible + b.outcomes.nonEligible),
      Reach(a.reach.all + b.reach.all, a.reach.retroactive + b.reach.retroactive,
            a.reach.latestOnly + b.reach.latestOnly))
  }

  function Add(a: Totals, b: Totals): Totals {
    Totals(a.sessions + b.sessions, a.requests + b.requests,
           TokenTotals(AddVolume(a.tokens.volume, b.tokens.volume), AddSplit(a.tokens.split, b.tokens.split)),
           AddCosts(a.costs, b.costs), AddCache(a.cache, b.cache), AddRewrites(a.rewrites, b.rewrites))
  }

  lemma AddSwaps()
    ensures Swaps(Add)
  {
    forall a, b, c
      ensures Add(Add(a, b), c) == Add(Add(a, c), b)
    {
    }
  }

  lemma AddNothing(a: Totals)
    ensures Add(a, NothingScored(0)) == a
  {
  }

  method MergeCosts(target: ModeSummary, costs: CostTotals)
    modifies target`costs
    ensures target.costs == AddCosts(old(target.costs), costs)
  {
    var input := target.costs.input;
    input := input.(paid := input.paid + costs.input.paid);
    input := input.(cacheRead := input.cacheRead + costs.input.cacheRead);
    input := input.(cacheWrite := input.cacheWrite + costs.input.cacheWrite);
    target.costs := target.costs.(input := input);
    target.costs := target.costs.(paidOutput := target.costs.paidOutput + costs.paidOutput);
    target.costs := target.costs.(total := target.costs.total + costs.total);
  }

  method MergeCounters(target: ModeSummary, cache: CacheTurns, outcomes: Outcomes, reach: Reach)
    modifies target`cache, target`outcomes, target`reach
    ensures target.cache == AddCache(old(target.cache), cache)
    ensures RewriteTurns(target.outcomes, target.reach)
         == AddRewrites(RewriteTurns(old(target.outcomes), old(target.reach)), RewriteTurns(outcomes, reach))
  {
    target.cache := target.cache.(eligible := target.cache.eligible + cache.eligible);
    target.cache := target.cache.(busts := target.cache.busts + cache.busts);
    target.cache := target.cache.(ttlExpiries := target.cache.ttlExpiries + cache.ttlExpiries);
    target.reach := target.reach.(all := target.reach.all + reach.all);
    target.outcomes := target.outcomes.(stable := target.outcomes.stable + outcomes.stable);
    target.outcomes := target.outcomes.(busting := target.outcomes.busting + outcomes.busting);
    target.outcomes := target.outcomes.(nonEligible := target.outcomes.nonEligible + outcomes.nonEligible);
    target.reach := target.reach.(retroactive := target.reach.retroactive + reach.retroactive);
    target.reach := target.reach.(latestOnly := target.reach.latestOnly + reach.latestOnly);
  }

  /** `_merge_mode_summary` */
  method Merge(target: ModeSummary, source: Totals)
    modifies target
    ensures target.Value() == Add(old(target.Value()), source)
  {
    target.sessions := target.sessions + source.sessions;
    target.requests := target.requests + source.requests;
    var volume, split := source.tokens.volume, source.tokens.split;
    target.volume := target.volume.(raw := target.volume.raw + volume.raw);
    target.volume := target.volume.(forwarded := target.volume.forwarded + volume.forwarded);
    target.volume := target.volume.(output := target.volume.output + volume.output);
    target.split := target.split.(cacheRead := target.split.cacheRead + split.cacheRead);
    target.split := target.split.(cacheWrite := target.split.cacheWrite + split.cacheWrite);
    target.split := target.split.(regular := target.split.regular + split.regular);
    MergeCosts(target, source.costs);
    MergeCounters(target, source.cache, source.rewrites.outcomes, source.rewrites.reach);
  }

  // ----- The summaries of session files -----

  /** Everything a run is configured with. */
  datatype Job = Job(setup: Setup, proxy: Proxy, mode: Mode, recent: Option<int>)

  function PartOf(job: Job, file: SessionFile): Totals {
    match file.turns
    case None => NothingScored(0)
    case Some(turns) => SessionTotals(job.setup, job.proxy, job.mode, Trim(turns, job.recent))
  }

  function Parts(job: Job, files: seq<SessionFile>): (parts: seq<Totals>)
    ensures |parts| == |files|
    ensures forall k {:trigger parts[k]} :: 0 <= k < |files| ==> parts[k] == PartOf(job, files[k])
  {
    seq(|files|, k requires 0 <= k < |files| => PartOf(job, files[k]))
  }

  /** `_simulate_single_session_file_mode` */
  method SimulateFile(job: Job, file: SessionFile) returns (part: Totals)
    ensures part == PartOf(job, file)
  {
    match file.turns
    case None =>
      part := NothingScored(0);
    case Some(turns) =>
      var summary := SimulateReplay(job.setup, job.proxy, job.mode, Trim(turns, job.recent));
      part := summary.Value();
  }

  // ----- The checkpoint directory -----

  datatype Key = Key(mode: Mode, sessionId: string)

  /** A checkpoint as found on disk; a write cut short by a crash leaves one that does not parse. */
  datatype Entry = Complete(totals: Totals) | Torn

  /** `_load_checkpoint_by_session_id` */
  function LoadFrom(entries: map<Key, Entry>, key: Key): Option<Totals> {
    if key in entries && entries[key].Complete? then Some(entries[key].totals) else None
  }

  class CheckpointDir {
    var entries: map<Key, Entry>

    constructor ()
      ensures entries == map[]
    {
      entries := map[];
    }

    function Load(key: Key): Option<Totals>
      reads this
    {
      LoadFrom(entries, key)
    }

    /** `_write_checkpoint_by_session_id` */
    method Write(key: Key, totals: Totals)
      modifies this
      ensures entries == old(entries)[key := Complete(totals)]
    {
      entries := entries[key := Complete(totals)];
    }

    /** The process dies while writing. */
    method WriteTorn(key: Key)
      modifies this
      ensures entries == old(entries)[key := Torn]
    {
      entries := entries[key := Torn];
    }
  }

  /** A summary of some file with this session id. */
  ghost predicate Bears(files: seq<SessionFile>, own: seq<Totals>, stem: string, part: Totals)
    requires |own| == |files|
  {
    exists j :: 0 <= j < |files| && files[j].stem == stem && part == own[j]
  }

  ghost predicate SoundFor(entries: map<Key, Entry>, mode: Mode, files: seq<SessionFile>, own: seq<Totals>,
                           stem: string)
    requires |own| == |files|
  {
    var loaded := LoadFrom(entries, Key(mode, stem));
    loaded.Some? ==> Bears(files, own, stem, loaded.value)
  }

  /** Every checkpoint that can be read holds the summary of a file with its session id; `own` are
      the summaries of the files. */
  ghost predicate Sound(entries: map<Key, Entry>, mode: Mode, files: seq<SessionFile>, own: seq<Totals>)
    requires |own| == |files|
  {
    forall stem :: SoundFor(entries, mode, files, own, stem)
  }

  lemma LoadWritten(entries: map<Key, Entry>, key: Key, entry: Entry, other: Key)
    ensures LoadFrom(entries[key := entry], other)
         == if other != key then LoadFrom(entries, other)
            else if entry.Complete? then Some(entry.totals) else None
  {
  }

  /** Writing a file's own summary, or dying while writing it, keeps the directory sound. */
  lemma WriteKeepsSound(entries: map<Key, Entry>, mode: Mode, files: seq<SessionFile>, own: seq<Totals>, i: nat,
                        entry: Entry)
    requires |own| == |files| && i < |files| && Sound(entries, mode, files, own)
    requires entry == Torn || entry == Complete(own[i])
    ensures Sound(entries[Key(mode, files[i].stem) := entry], mode, files, own)
  {
    var entries' := entries[Key(mode, files[i].stem) := entry];
    forall stem
      ensures SoundFor(entries', mode, files, own, stem)
    {
      LoadWritten(entries, Key(mode, files[i].stem), entry, Key(mode, stem));
      assert SoundFor(entries, mode, files, own, stem);
    }
  }

  ghost predicate KeepsSound(before: map<Key, Entry>, after: map<Key, Entry>, mode: Mode, files: seq<SessionFile>,
                             own: seq<Totals>)
    requires |own| == |files|
  {
    Sound(before, mode, files, own) ==> Sound(after, mode, files, own)
  }

  ghost predicate OnlyModeChanged(before: map<Key, Entry>, after: map<Key, Entry>, mode: Mode) {
    forall key: Key :: key.mode != mode ==> LoadFrom(before, key) == LoadFrom(after, key)
  }

  lemma WriteInMode(entries: map<Key, Entry>, key: Key, entry: Entry)
    ensures OnlyModeChanged(entries, entries[key := entry], key.mode)
  {
  }

  lemma ChangesAdd(before: map<Key, Entry>, now: map<Key, Entry>, after: map<Key, Entry>, mode: Mode)
    requires OnlyModeChanged(before, now, mode) && OnlyModeChanged(now, after, mode)
    ensures OnlyModeChanged(before, after, mode)
  {
  }

  // ----- What a file counts for -----

  /** The first of the first `i` files that leaves a checkpoint under this session id. */
  function Writer(files: seq<SessionFile>, stem: string, i: nat): (j: Option<nat>)
    requires i <= |files|
    ensures j.Some? ==> j.value < i && files[j.value].stem == stem && files[j.value].turns.Some?
  {
    if i == 0 then None
    else
      var earlier := Writer(files, stem, i - 1);
      if earlier.None? && files[i - 1].stem == stem && files[i - 1].turns.Some? then Some(i - 1) else earlier
  }

  /** The checkpoint a sequential run finds under a session id once it has passed the first `i` files. */
  function Found(entries: map<Key, Entry>, mode: Mode, files: seq<SessionFile>, own: seq<Totals>, stem: string, i: nat)
    : Option<Totals>
    requires |own| == |files| && i <= |files|
  {
    var loaded, writer := LoadFrom(entries, Key(mode, stem)), Writer(files, stem, i);
    if loaded.None? && writer.Some? then Some(own[writer.value]) else loaded
  }

  function ValueOr<T>(found: Option<T>, otherwise: T): T {
    if found.Some? then found.value else otherwise
  }

  /** What each file counts for when the files are taken one after the other. */
  function InOrder(entries: map<Key, Entry>, mode: Mode, files: seq<SessionFile>, own: seq<Totals>)
    : (parts: seq<Totals>)
    requires |own| == |files|
    ensures |parts| == |files|
    ensures forall k {:trigger parts[k]} :: 0 <= k < |files| ==>
      parts[k] == ValueOr(Found(entries, mode, files, own, files[k].stem, k), own[k])
  {
    seq(|files|, k requires 0 <= k < |files| =>
      ValueOr(Found(entries, mode, files, own, files[k].stem, k), own[k]))
  }

  /** What each file counts for when all checkpoints are looked up before any file is simulated. */
  function AtOnce(entries: map<Key, Entry>, mode: Mode, files: seq<SessionFile>, own: seq<Totals>)
    : (parts: seq<Totals>)
    requires |own| == |files|
    ensures |parts| == |files|
    ensures forall k {:trigger parts[k]} :: 0 <= k < |files| ==>
      parts[k] == ValueOr(LoadFrom(entries, Key(mode, files[k].stem)), own[k])
  {
    seq(|files|, k requires 0 <= k < |files| => ValueOr(LoadFrom(entries, Key(mode, files[k].stem)), own[k]))
  }

  function Counted(entries: map<Key, Entry>, mode: Mode, files: seq<SessionFile>, own: seq<Totals>, pooled: bool)
    : (parts: seq<Totals>)
    requires |own| == |files|
    ensures |parts| == |files|
  {
    if pooled then AtOnce(entries, mode, files, own) else InOrder(entries, mode, files, own)
  }

  // ----- Sums -----

  /** The sum of the parts of all files, one after the other. */
  ghost function AllFiles(parts: seq<Totals>): Totals {
    Merged(Add, NothingScored(0), parts, Upto(|parts|))
  }

  ghost function MergedSoFar(parts: seq<Totals>, order: seq<nat>): Totals
    requires Indices(order, |parts|)
  {
    Merged(Add, NothingScored(0), parts, order)
  }

  lemma {:induction false} MergeOneMore(parts: seq<Totals>, order: seq<nat>, i: nat)
    requires i < |parts| && Indices(order, |parts|)
    ensures Indices(order + [i], |parts|)
    ensures MergedSoFar(parts, order + [i]) == Add(MergedSoFar(parts, order), parts[i])
  {
    assert (order + [i])[..|order|] == order;
  }

  /** The summary once the files in `order` have been merged. */
  ghost predicate Reached(value: Totals, parts: seq<Totals>, order: seq<nat>) {
    Indices(order, |parts|) && value == MergedSoFar(parts, order)
  }

  lemma {:induction false} ReachNext(value: Totals, parts: seq<Totals>, order: seq<nat>, i: nat, value': Totals)
    requires i < |parts| && Reached(value, parts, order) && value' == Add(value, parts[i])
    ensures Reached(value', parts, order + [i])
  {
    MergeOneMore(parts, order, i);
  }

  lemma {:induction false} ReachedInOrder(value: Totals, parts: seq<Totals>, i: nat, value': Totals)
    requires i < |parts| && Reached(value, parts, Upto(i)) && value' == Add(value, parts[i])
    ensures Reached(value', parts, Upto(i + 1))
  {
    ReachNext(value, parts, Upto(i), i, value');
    assert Upto(i + 1) == Upto(i) + [i];
  }

  lemma {:induction false} ReachedInAnyOrder(value: Totals, parts: seq<Totals>, order: seq<nat>)
    requires multiset(order) == multiset(Upto(|parts|)) && Reached(value, parts, order)
    ensures value == AllFiles(parts)
  {
    AddSwaps();
    MergeOrderIrrelevant(Add, NothingScored(0), parts, order, Upto(|parts|));
  }

  // ----- One mode, one process -----

  /** The checkpoints once a sequential run that began with `start` has passed the first `i` files. */
  ghost predicate Passed(start: map<Key, Entry>, entries: map<Key, Entry>, mode: Mode, files: seq<SessionFile>,
                         own: seq<Totals>, i: nat)
    requires |own| == |files| && i <= |files|
  {
    forall stem :: LoadFrom(entries, Key(mode, stem)) == Found(start, mode, files, own, stem, i)
  }

  lemma FoundNext(start: map<Key, Entry>, mode: Mode, files: seq<SessionFile>, own: seq<Totals>, stem: string, i: nat)
    requires |own| == |files| && i < |files|
    ensures var found := Found(start, mode, files, own, stem, i);
            Found(start, mode, files, own, stem, i + 1)
            == if found.None? && files[i].stem == stem && files[i].turns.Some? then Some(own[i]) else found
  {
  }

  /** A file that has a checkpoint already, or leaves none, changes nothing. */
  lemma PassWithoutWrite(start: map<Key, Entry>, entries: map<Key, Entry>, mode: Mode, files: seq<SessionFile>,
                         own: seq<Totals>, i: nat)
    requires |own| == |files| && i < |files| && Passed(start, entries, mode, files, own, i)
    requires LoadFrom(entries, Key(mode, files[i].stem)).Some? || files[i].turns.None?
    ensures Passed(start, entries, mode, files, own, i + 1)
  {
    forall stem
      ensures LoadFrom(entries, Key(mode, stem)) == Found(start, mode, files, own, stem, i + 1)
    {
      FoundNext(start, mode, files, own, stem, i);
    }
  }

  lemma PassWithWrite(start: map<Key, Entry>, entries: map<Key, Entry>, mode: Mode, files: seq<SessionFile>,
                      own: seq<Totals>, i: nat)
    requires |own| == |files| && i < |files| && Passed(start, entries, mode, files, own, i)
    requires LoadFrom(entries, Key(mode, files[i].stem)).None? && files[i].turns.Some?
    ensures Passed(start, entries[Key(mode, files[i].stem) := Complete(own[i])], mode, files, own, i + 1)
  {
    var key := Key(mode, files[i].stem);
    forall stem
      ensures LoadFrom(entries[key := Complete(own[i])], Key(mode, stem))
           == Found(start, mode, files, own, stem, i + 1)
    {
      LoadWritten(entries, key, Complete(own[i]), Key(mode, stem));
      FoundNext(start, mode, files, own, stem, i);
    }
  }

  lemma PassedIsSound(start: map<Key, Entry>, entries: map<Key, Entry>, mode: Mode, files: seq<SessionFile>,
                      own: seq<Totals>, i: nat)
    requires |own| == |files| && i <= |files| && Passed(start, entries, mode, files, own, i)
    ensures KeepsSound(start, entries, mode, files, own)
  {
    if Sound(start, mode, files, own) {
      forall stem
        ensures SoundFor(entries, mode, files, own, stem)
      {
        assert SoundFor(start, mode, files, own, stem);
        assert LoadFrom(entries, Key(mode, stem)) == Found(start, mode, files, own, stem, i);
      }
    }
  }

  /** Takes file `i` into the summary: from its checkpoint, or by simulating it. */
  method PassFile(job: Job, files: seq<SessionFile>, i: nat, dir: CheckpointDir, summary: ModeSummary,
                  ghost start: map<Key, Entry>, ghost own: seq<Totals>, ghost part: Totals)
    requires own == Parts(job, files) && i < |files| && Passed(start, dir.entries, job.mode, files, own, i)
    requires part == ValueOr(LoadFrom(dir.entries, Key(job.mode, files[i].stem)), own[i])
    modifies dir, summary
    ensures Passed(start, dir.entries, job.mode, files, own, i + 1)
    ensures OnlyModeChanged(old(dir.entries), dir.entries, job.mode)
    ensures summary.Value() == Add(old(summary.Value()), part)
  {
    var cached := dir.Load(Key(job.mode, files[i].stem));
    if cached.Some? {
      PassWithoutWrite(start, dir.entries, job.mode, files, own, i);
      Merge(summary, cached.value);
    } else if files[i].turns.Some? {
      PassWithWrite(start, dir.entries, job.mode, files, own, i);
      WriteInMode(dir.entries, Key(job.mode, files[i].stem), Complete(part));
      var simulated := SimulateFile(job, files[i]);
      dir.Write(Key(job.mode, files[i].stem), simulated);
      Merge(summary, simulated);
    } else {
      PassWithoutWrite(start, dir.entries, job.mode, files, own, i);
      AddNothing(summary.Value());
    }
  }

  /** The process dies at file `i`, perhaps inside its checkpoint write. */
  method Die(mode: Mode, files: seq<SessionFile>, i: nat, dir: CheckpointDir, torn: bool, ghost own: seq<Totals>)
    requires |own| == |files| && i < |files|
    modifies dir
    ensures KeepsSound(old(dir.entries), dir.entries, mode, files, own)
    ensures OnlyModeChanged(old(dir.entries), dir.entries, mode)
  {
    if torn {
      if Sound(dir.entries, mode, files, own) {
        WriteKeepsSound(dir.entries, mode, files, own, i, Torn);
      }
      WriteInMode(dir.entries, Key(mode, files[i].stem), Torn);
      dir.WriteTorn(Key(mode, files[i].stem));
    }
  }

  /** What a run leaves behind: only checkpoints of its mode have changed, and they are sound if they were. */
  ghost predicate Leaves(before: map<Key, Entry>, after: map<Key, Entry>, mode: Mode, files: seq<SessionFile>,
                         own: seq<Totals>)
    requires |own| == |files|
  {
    KeepsSound(before, after, mode, files, own) && OnlyModeChanged(before, after, mode)
  }

  lemma LeavesAdd(before: map<Key, Entry>, now: map<Key, Entry>, after: map<Key, Entry>, mode: Mode,
                  files: seq<SessionFile>, own: seq<Totals>)
    requires |own| == |files| && Leaves(before, now, mode, files, own) && Leaves(now, after, mode, files, own)
    ensures Leaves(before, after, mode, files, own)
  {
    ChangesAdd(before, now, after, mode);
  }

  /** Goes through the files in order. The process is killed when it reaches file `stop`, if there
      is one, inside that file's checkpoint write when `torn`. */
  method SimulateSequentially(job: Job, files: seq<SessionFile>, dir: CheckpointDir, stop: nat, torn: bool,
                              ghost own: seq<Totals>)
    returns (result: Option<Totals>)
    requires own == Parts(job, files)
    modifies dir
    ensures result == if stop < |files| then None else Some(AllFiles(InOrder(old(dir.entries), job.mode, files, own)))
    ensures Leaves(old(dir.entries), dir.entries, job.mode, files, own)
  {
    var summary := new ModeSummary(0);
    ghost var start, parts := dir.entries, InOrder(dir.entries, job.mode, files, own);
    var last := if stop < |files| then stop else |files|;
    for i := 0 to last
      invariant fresh(summary)
      invariant Passed(start, dir.entries, job.mode, files, own, i) && OnlyModeChanged(start, dir.entries, job.mode)
      invariant Reached(summary.Value(), parts, Upto(i))
    {
      ghost var before, value := dir.entries, summary.Value();
      PassFile(job, files, i, dir, summary, start, own, parts[i]);
      ChangesAdd(start, before, dir.entries, job.mode);
      ReachedInOrder(value, parts, i, summary.Value());
    }
    PassedIsSound(start, dir.entries, job.mode, files, own, last);
    if last < |files| {
      ghost var before := dir.entries;
      var cached := dir.Load(Key(job.mode, files[last].stem));
      Die(job.mode, files, last, dir, torn && cached.None? && files[last].turns.Some?, own);
      LeavesAdd(start, before, dir.entries, job.mode, files, own);
      result := None;
    } else {
      result := Some(summary.Value());
    }
  }

  // ----- One mode, a pool of workers -----

  /** These files are counted for themselves. */
  ghost predicate CountedAsOwn(own: seq<Totals>, parts: seq<Totals>, pending: seq<nat>)
    requires |own| == |parts|
  {
    forall i :: i in pending ==> i < |parts| && parts[i] == own[i]
  }

  lemma {:induction false} MovePending(order: seq<nat>, pending: seq<nat>, p: nat)
    requires p < |pending|
    ensures multiset(order + [pending[p]] + Without(pending, p)) == multiset(order + pending)
  {
    WithoutOne(pending, p);
  }

  lemma {:induction false} OneMoreFile(order: seq<nat>, pending: seq<nat>, i: nat)
    requires multiset(order + pending) == multiset(Upto(i))
    ensures multiset((order + [i]) + pending) == multiset(Upto(i + 1))
    ensures multiset(order + (pending + [i])) == multiset(Upto(i + 1))
  {
    assert Upto(i + 1) == Upto(i) + [i];
  }

  /** File `i` is merged if it has a checkpoint, and left to the workers otherwise. */
  method SubmitFile(mode: Mode, files: seq<SessionFile>, i: nat, dir: CheckpointDir, summary: ModeSummary,
                    pending: seq<nat>, ghost own: seq<Totals>, ghost parts: seq<Totals>, ghost order: seq<nat>)
    returns (pending': seq<nat>, ghost order': seq<nat>)
    requires |own| == |files| && parts == AtOnce(dir.entries, mode, files, own)
    requires i < |files| && multiset(order + pending) == multiset(Upto(i))
    requires Reached(summary.Value(), parts, order) && CountedAsOwn(own, parts, pending)
    modifies summary
    ensures multiset(order' + pending') == multiset(Upto(i + 1))
    ensures Reached(summary.Value(), parts, order') && CountedAsOwn(own, parts, pending')
  {
    OneMoreFile(order, pending, i);
    var cached := dir.Load(Key(mode, files[i].stem));
    assert parts[i] == ValueOr(cached, own[i]);
    if cached.Some? {
      ghost var value := summary.Value();
      Merge(summary, cached.value);
      ReachNext(value, parts, order, i, summary.Value());
      pending', order' := pending, order + [i];
    } else {
      pending', order' := pending + [i], order;
    }
  }

  /** Merges the files that have a checkpoint and leaves the others to the workers. */
  method Submit(mode: Mode, files: seq<SessionFile>, dir: CheckpointDir, summary: ModeSummary, ghost own: seq<Totals>,
                ghost parts: seq<Totals>)
    returns (pending: seq<nat>, ghost order: seq<nat>)
    requires |own| == |files| && parts == AtOnce(dir.entries, mode, files, own)
    requires summary.Value() == NothingScored(0)
    modifies summary
    ensures multiset(order + pending) == multiset(Upto(|files|))
    ensures Reached(summary.Value(), parts, order) && CountedAsOwn(own, parts, pending)
  {
    pending, order := [], [];
    for i := 0 to |files|
      invariant multiset(order + pending) == multiset(Upto(i))
      invariant Reached(summary.Value(), parts, order) && CountedAsOwn(own, parts, pending)
    {
      pending, order := SubmitFile(mode, files, i, dir, summary, pending, own, parts, order);
    }
  }

  /** Takes the result of a worker: its checkpoint is written whether the file has a replay or not. */
  method CollectFile(job: Job, files: seq<SessionFile>, i: nat, dir: CheckpointDir, summary: ModeSummary,
                     ghost own: seq<Totals>)
    requires own == Parts(job, files) && i < |files|
    modifies dir, summary
    ensures Leaves(old(dir.entries), dir.entries, job.mode, files, own)
    ensures summary.Value() == Add(old(summary.Value()), own[i])
  {
    var part := SimulateFile(job, files[i]);
    assert part == own[i];
    if Sound(dir.entries, job.mode, files, own) {
      WriteKeepsSound(dir.entries, job.mode, files, own, i, Complete(part));
    }
    WriteInMode(dir.entries, Key(job.mode, files[i].stem), Complete(part));
    dir.Write(Key(job.mode, files[i].stem), part);
    Merge(summary, part);
  }

  lemma {:induction false} OthersStayOwn(own: seq<Totals>, parts: seq<Totals>, pending: seq<nat>, p: nat)
    requires |own| == |parts| && p < |pending| && CountedAsOwn(own, parts, pending)
    ensures pending[p] < |parts| && parts[pending[p]] == own[pending[p]]
    ensures |Without(pending, p)| == |pending| - 1 && CountedAsOwn(own, parts, Without(pending, p))
  {
    assert pending[p] in pending;
    forall i | i in Without(pending, p)
      ensures i in pending
    {
    }
  }

  /** The next worker to finish is the one of `pending[p]`. */
  method CollectNext(job: Job, files: seq<SessionFile>, dir: CheckpointDir, summary: ModeSummary, pending: seq<nat>,
                     p: nat, ghost own: seq<Totals>, ghost parts: seq<Totals>, ghost order: seq<nat>)
    returns (pending': seq<nat>, ghost order': seq<nat>)
    requires own == Parts(job, files) && |parts| == |files| && p < |pending|
    requires Reached(summary.Value(), parts, order) && CountedAsOwn(own, parts, pending)
    modifies dir, summary
    ensures Leaves(old(dir.entries), dir.entries, job.mode, files, own)
    ensures |pending'| == |pending| - 1 && multiset(order' + pending') == multiset(order + pending)
    ensures Reached(summary.Value(), parts, order') && CountedAsOwn(own, parts, pending')
  {
    var i := pending[p];
    OthersStayOwn(own, parts, pending, p);
    MovePending(order, pending, p);
    ghost var value := summary.Value();
    CollectFile(job, files, i, dir, summary, own);
    ReachNext(value, parts, order, i, summary.Value());
    pending', order' := Without(pending, p), order + [i];
  }

  /** Collects the workers' results as they complete, in any order. The process is killed when
      `stop` results have been collected, if there are more. */
  method Collect(job: Job, files: seq<SessionFile>, dir: CheckpointDir, summary: ModeSummary, submitted: seq<nat>,
                 stop: nat, torn: bool, ghost own: seq<Totals>, ghost parts: seq<Totals>, ghost merged: seq<nat>)
    returns (finished: bool)
    requires own == Parts(job, files) && |parts| == |files|
    requires multiset(merged + submitted) == multiset(Upto(|files|))
    requires Reached(summary.Value(), parts, merged) && CountedAsOwn(own, parts, submitted)
    modifies dir, summary
    ensures Leaves(old(dir.entries), dir.entries, job.mode, files, own)
    ensures finished == (stop >= |submitted|)
    ensures finished ==> summary.Value() == AllFiles(parts)
  {
    var pending, completed := submitted, 0;
    ghost var start, order := dir.entries, merged;
    while pending != [] && completed < stop
      invariant completed + |pending| == |submitted| && completed <= stop
      invariant Leaves(start, dir.entries, job.mode, files, own)
      invariant multiset(order + pending) == multiset(Upto(|files|))
      invariant Reached(summary.Value(), parts, order) && CountedAsOwn(own, parts, pending)
      decreases |pending|
    {
      var p :| 0 <= p < |pending|;
      ghost var before := dir.entries;
      pending, order := CollectNext(job, files, dir, summary, pending, p, own, parts, order);
      LeavesAdd(start, before, dir.entries, job.mode, files, own);
      completed := completed + 1;
    }
    finished := pending == [];
    if finished {
      assert order + pending == order;
      ReachedInAnyOrder(summary.Value(), parts, order);
    } else {
      var p :| 0 <= p < |pending|;
      assert pending[p] in pending;
      ghost var before := dir.entries;
      Die(job.mode, files, pending[p], dir, torn, own);
      LeavesAdd(start, before, dir.entries, job.mode, files, own);
    }
  }

  method SimulateInWorkers(job: Job, files: seq<SessionFile>, dir: CheckpointDir, stop: nat, torn: bool,
                           ghost own: seq<Totals>)
    returns (result: Option<Totals>)
    requires own == Parts(job, files)
    modifies dir
    ensures result.Some? ==> result.value == AllFiles(AtOnce(old(dir.entries), job.mode, files, own))
    ensures stop >= |files| ==> result.Some?
    ensures Leaves(old(dir.entries), dir.entries, job.mode, files, own)
  {
    var summary := new ModeSummary(0);
    var pending;
    ghost var order;
    ghost var parts := AtOnce(dir.entries, job.mode, files, own);
    pending, order := Submit(job.mode, files, dir, summary, own, parts);
    assert |order + pending| == |multiset(order + pending)| == |multiset(Upto(|files|))| == |files|;
    var finished := Collect(job, files, dir, summary, pending, stop, torn, own, parts, order);
    result := if finished then Some(summary.Value()) else None;
  }

  // ----- One mode of a run -----

  /** One run of a mode: how many workers it has, and when it is killed. */
  datatype Attempt = Attempt(workers: int, stop: nat, torn: bool)

  predicate Pooled(workers: int, files: seq<SessionFile>) {
    workers > 1 && |files| > 1
  }

  method SimulateMode(job: Job, files: seq<SessionFile>, dir: CheckpointDir, attempt: Attempt, ghost own: seq<Totals>)
    returns (result: Option<Totals>)
    requires own == Parts(job, files)
    modifies dir
    ensures result.Some? ==>
      result.value == AllFiles(Counted(old(dir.entries), job.mode, files, own, Pooled(attempt.workers, files)))
    ensures attempt.stop >= |files| ==> result.Some?
    ensures Leaves(old(dir.entries), dir.entries, job.mode, files, own)
  {
    var workers := if attempt.workers > 0 then attempt.workers else 1;
    if workers > 1 && |files| > 1 {
      result := SimulateInWorkers(job, files, dir, attempt.stop, attempt.torn, own);
    } else {
      result := SimulateSequentially(job, files, dir, attempt.stop, attempt.torn, own);
    }
  }

  // ----- Files that share a session id -----

  function Chosen<T>(xs: seq<T>, who: seq<nat>): (chosen: seq<T>)
    requires Indices(who, |xs|)
    ensures |chosen| == |who|
    ensures forall k {:trigger chosen[k]} :: 0 <= k < |who| ==> chosen[k] == xs[who[k]]
  {
    seq(|who|, k requires 0 <= k < |who| => xs[who[k]])
  }

  ghost predicate SameStem(files: seq<SessionFile>, j: nat, k: nat) {
    j < |files| && k < |files| && files[j].stem == files[k].stem
  }

  /** For each of the first files one with the same session id. */
  ghost predicate StandIns(files: seq<SessionFile>, who: seq<nat>) {
    Indices(who, |files|) && forall k :: 0 <= k < |who| ==> SameStem(files, who[k], k)
  }

  lemma CountedIsBorne(entries: map<Key, Entry>, mode: Mode, files: seq<SessionFile>, own: seq<Totals>, pooled: bool,
                       k: nat)
    requires |own| == |files| && k < |files| && Sound(entries, mode, files, own)
    ensures Bears(files, own, files[k].stem, Counted(entries, mode, files, own, pooled)[k])
  {
    assert SoundFor(entries, mode, files, own, files[k].stem);
  }

  lemma BearerOf(entries: map<Key, Entry>, mode: Mode, files: seq<SessionFile>, own: seq<Totals>, pooled: bool, k: nat)
    returns (j: nat)
    requires |own| == |files| && k < |files| && Sound(entries, mode, files, own)
    ensures SameStem(files, j, k) && Counted(entries, mode, files, own, pooled)[k] == own[j]
  {
    CountedIsBorne(entries, mode, files, own, pooled, k);
    j :| 0 <= j < |files| && files[j].stem == files[k].stem && Counted(entries, mode, files, own, pooled)[k] == own[j];
  }

  lemma {:induction false} OneMoreStandIn(files: seq<SessionFile>, own: seq<Totals>, parts: seq<Totals>,
                                          who: seq<nat>, j: nat)
    requires |own| == |parts| == |files| && |who| < |files|
    requires StandIns(files, who) && parts[..|who|] == Chosen(own, who)
    requires SameStem(files, j, |who|) && parts[|who|] == own[j]
    ensures StandIns(files, who + [j]) && parts[..|who| + 1] == Chosen(own, who + [j])
  {
    forall k | 0 <= k < |who| + 1
      ensures SameStem(files, (who + [j])[k], k)
    {
      assert k < |who| ==> SameStem(files, who[k], k);
    }
    assert parts[..|who| + 1] == parts[..|who|] + [own[j]];
    assert Chosen(own, who + [j]) == Chosen(own, who) + [own[j]];
  }

  lemma {:induction false} StandInFirst(entries: map<Key, Entry>, mode: Mode, files: seq<SessionFile>,
                                        own: seq<Totals>, pooled: bool, parts: seq<Totals>, k: nat)
    returns (who: seq<nat>)
    requires |own| == |files| && k <= |files| && Sound(entries, mode, files, own)
    requires parts == Counted(entries, mode, files, own, pooled)
    ensures |who| == k && StandIns(files, who) && parts[..k] == Chosen(own, who)
  {
    who := [];
    if k > 0 {
      who := StandInFirst(entries, mode, files, own, pooled, parts, k - 1);
      var j := BearerOf(entries, mode, files, own, pooled, k - 1);
      OneMoreStandIn(files, own, parts, who, j);
      who := who + [j];
    }
  }

  /** Whatever the history of a sound directory, each file is counted by one with its session id. */
  lemma {:induction false} CountedStandIn(entries: map<Key, Entry>, mode: Mode, files: seq<SessionFile>,
                                          own: seq<Totals>, pooled: bool)
    returns (who: seq<nat>)
    requires |own| == |files| && Sound(entries, mode, files, own)
    ensures |who| == |files| && StandIns(files, who)
    ensures Counted(entries, mode, files, own, pooled) == Chosen(own, who)
  {
    var parts := Counted(entries, mode, files, own, pooled);
    who := StandInFirst(entries, mode, files, own, pooled, parts, |files|);
    assert parts[..|files|] == parts;
  }

  lemma ChosenParts(job: Job, files: seq<SessionFile>, who: seq<nat>)
    requires Indices(who, |files|)
    ensures Chosen(Parts(job, files), who) == Parts(job, Chosen(files, who))
  {
    var a, b := Chosen(Parts(job, files), who), Parts(job, Chosen(files, who));
    forall k | 0 <= k < |who|
      ensures a[k] == b[k]
    {
    }
  }

  /** Two files with one session id are copies of each other. */
  ghost predicate DistinctIds(files: seq<SessionFile>) {
    forall j, k :: 0 <= j < |files| && 0 <= k < |files| && files[j].stem == files[k].stem ==> files[j] == files[k]
  }

  lemma DistinctStandIns(files: seq<SessionFile>, who: seq<nat>)
    requires DistinctIds(files) && |who| == |files| && StandIns(files, who)
    ensures Chosen(files, who) == files
  {
    forall k | 0 <= k < |files|
      ensures Chosen(files, who)[k] == files[k]
    {
      assert SameStem(files, who[k], k);
    }
  }

  /** From an empty directory a pool counts each file for itself. */
  lemma PoolCountsOwn(mode: Mode, files: seq<SessionFile>, own: seq<Totals>)
    requires |own| == |files|
    ensures AtOnce(map[], mode, files, own) == own
  {
  }

  lemma {:induction false} WriterIsFirst(files: seq<SessionFile>, stem: string, i: nat, j: nat)
    requires j < i <= |files| && files[j].stem == stem && files[j].turns.Some?
    ensures Writer(files, stem, i) == Some(if Writer(files, stem, j).Some? then Writer(files, stem, j).value else j)
  {
    if j < i - 1 {
      WriterIsFirst(files, stem, i - 1, j);
    }
  }

  /** No earlier file with a replay has the same session id and another summary. */
  ghost predicate Unrivalled(files: seq<SessionFile>, own: seq<Totals>, j: nat, k: nat)
    requires j < k < |files| == |own|
  {
    files[j].stem == files[k].stem && files[j].turns.Some? ==> own[j] == own[k]
  }

  lemma OrderCountsWriter(mode: Mode, files: seq<SessionFile>, own: seq<Totals>, k: nat)
    requires |own| == |files| && k < |files|
    ensures var writer := Writer(files, files[k].stem, k);
            InOrder(map[], mode, files, own)[k] == own[if writer.Some? then writer.value else k]
  {
  }

  /** From an empty directory a single process counts each file for itself if and only if no earlier
      file with the same session id has a replay with another summary. */
  lemma {:induction false} OrderCountsOwnExactlyWhen(mode: Mode, files: seq<SessionFile>, own: seq<Totals>)
    requires |own| == |files|
    ensures InOrder(map[], mode, files, own) == own
       <==> forall j, k :: 0 <= j < k < |files| ==> Unrivalled(files, own, j, k)
  {
    var parts := InOrder(map[], mode, files, own);
    if parts == own {
      forall j, k | 0 <= j < k < |files|
        ensures Unrivalled(files, own, j, k)
      {
        OwnIsUnrivalled(mode, files, own, j, k);
      }
    } else {
      var k :| 0 <= k < |files| && parts[k] != own[k];
      OrderCountsWriter(mode, files, own, k);
      assert !Unrivalled(files, own, Writer(files, files[k].stem, k).value, k);
    }
  }

  lemma OwnIsUnrivalled(mode: Mode, files: seq<SessionFile>, own: seq<Totals>, j: nat, k: nat)
    requires |own| == |files| && j < k < |files| && InOrder(map[], mode, files, own) == own
    ensures Unrivalled(files, own, j, k)
  {
    if files[j].stem == files[k].stem && files[j].turns.Some? {
      WriterIsFirst(files, files[k].stem, k, j);
      OrderCountsWriter(mode, files, own, j);
      OrderCountsWriter(mode, files, own, k);
    }
  }

  lemma {:induction false} SumOfTwo(a: Totals, b: Totals)
    ensures AllFiles([a, b]) == Add(Add(NothingScored(0), a), b)
  {
    var parts := [a, b];
    assert Upto(0) == [] && Upto(1) == Upto(0) + [0] && Upto(2) == Upto(1) + [1];
    MergeOneMore(parts, Upto(0), 0);
    MergeOneMore(parts, Upto(1), 1);
  }

  lemma AddCancels(a: Totals, b: Totals, c: Totals)
    ensures Add(a, b) == Add(a, c) <==> b == c
  {
  }

  /** Two files with one session id, the first with a replay: one process and two workers report the
      same, from an empty directory, if and only if the files have the same summary. */
  lemma {:induction false} WorkersMatterExactlyWhen(mode: Mode, files: seq<SessionFile>, own: seq<Totals>)
    requires |files| == |own| == 2 && files[0].stem == files[1].stem && files[0].turns.Some?
    ensures AllFiles(InOrder(map[], mode, files, own)) == AllFiles(AtOnce(map[], mode, files, own))
       <==> own[0] == own[1]
  {
    PoolCountsOwn(mode, files, own);
    WriterIsFirst(files, files[1].stem, 1, 0);
    OrderCountsWriter(mode, files, own, 0);
    OrderCountsWriter(mode, files, own, 1);
    assert InOrder(map[], mode, files, own) == [own[0], own[0]] && own == [own[0], own[1]];
    SumOfTwo(own[0], own[0]);
    SumOfTwo(own[0], own[1]);
    AddCancels(Add(NothingScored(0), own[0]), own[0], own[1]);
  }

  // ----- All modes of a run -----

  const MODES := [Baseline, TokenMode, CacheMode]

  function InMode(job: Job, mode: Mode): Job {
    job.(mode := mode)
  }

  /** The summaries of the files in a mode. */
  function OwnIn(job: Job, mode: Mode, files: seq<SessionFile>): (own: seq<Totals>)
    ensures |own| == |files|
  {
    Parts(InMode(job, mode), files)
  }

  /** Sound for every mode. */
  ghost predicate SoundForAll(entries: map<Key, Entry>, job: Job, files: seq<SessionFile>) {
    forall mode :: Sound(entries, mode, files, OwnIn(job, mode, files))
  }

  lemma OtherModeKeepsSound(before: map<Key, Entry>, after: map<Key, Entry>, mode: Mode, files: seq<SessionFile>,
                            other: Mode, own: seq<Totals>)
    requires |own| == |files| && other != mode
    requires Sound(before, other, files, own) && OnlyModeChanged(before, after, mode)
    ensures Sound(after, other, files, own)
  {
    forall stem
      ensures SoundFor(after, other, files, own, stem)
    {
      assert SoundFor(before, other, files, own, stem);
      assert Key(other, stem).mode != mode;
    }
  }

  lemma ModeKeepsSound(before: map<Key, Entry>, after: map<Key, Entry>, job: Job, files: seq<SessionFile>, mode: Mode)
    requires SoundForAll(before, job, files) && Leaves(before, after, mode, files, OwnIn(job, mode, files))
    ensures SoundForAll(after, job, files)
  {
    forall other: Mode
      ensures Sound(after, other, files, OwnIn(job, other, files))
    {
      assert Sound(before, other, files, OwnIn(job, other, files));
      if other != mode {
        OtherModeKeepsSound(before, after, mode, files, other, OwnIn(job, other, files));
      }
    }
  }

  /** A run of the program: how many workers it has and where, in which mode, it is killed. */
  datatype Run = Run(workers: int, killedIn: Option<nat>, stop: nat, torn: bool)

  predicate Undisturbed(run: Run, files: seq<SessionFile>) {
    run.killedIn.None? || run.killedIn.value >= |MODES| || run.stop >= |files|
  }

  /** What a run sums up in a mode when it finds these checkpoints. */
  ghost function SumFrom(entries: map<Key, Entry>, job: Job, mode: Mode, files: seq<SessionFile>, pooled: bool): Totals
  {
    AllFiles(Counted(entries, mode, files, OwnIn(job, mode, files), pooled))
  }

  ghost predicate IsReportFrom(report: seq<Totals>, entries: map<Key, Entry>, job: Job, files: seq<SessionFile>,
                               pooled: bool)
  {
    && |report| == |MODES|
    && forall m {:trigger report[m]} :: 0 <= m < |MODES| ==>
         report[m] == SumFrom(entries, job, MODES[m], files, pooled)
  }

  /** The sum over files that stand in for all files. */
  ghost predicate IsSum(value: Totals, job: Job, files: seq<SessionFile>) {
    exists who :: |who| == |files| && StandIns(files, who) && value == AllFiles(Parts(job, Chosen(files, who)))
  }

  ghost predicate IsSumReport(report: seq<Totals>, job: Job, files: seq<SessionFile>) {
    && |report| == |MODES|
    && forall m {:trigger report[m]} :: 0 <= m < |MODES| ==> IsSum(report[m], InMode(job, MODES[m]), files)
  }

  /** The sum over the files themselves. */
  ghost predicate IsReport(report: seq<Totals>, job: Job, files: seq<SessionFile>) {
    && |report| == |MODES|
    && forall m {:trigger report[m]} :: 0 <= m < |MODES| ==> report[m] == AllFiles(Parts(InMode(job, MODES[m]), files))
  }

  lemma SoundSum(entries: map<Key, Entry>, job: Job, mode: Mode, files: seq<SessionFile>, pooled: bool)
    requires SoundForAll(entries, job, files)
    ensures IsSum(SumFrom(entries, job, mode, files, pooled), InMode(job, mode), files)
  {
    assert Sound(entries, mode, files, OwnIn(job, mode, files));
    var who := CountedStandIn(entries, mode, files, OwnIn(job, mode, files), pooled);
    ChosenParts(InMode(job, mode), files, who);
  }

  lemma SoundReport(report: seq<Totals>, entries: map<Key, Entry>, job: Job, files: seq<SessionFile>, pooled: bool)
    requires SoundForAll(entries, job, files) && IsReportFrom(report, entries, job, files, pooled)
    ensures IsSumReport(report, job, files)
  {
    forall m {:trigger report[m]} | 0 <= m < |MODES|
      ensures IsSum(report[m], InMode(job, MODES[m]), files)
    {
      SoundSum(entries, job, MODES[m], files, pooled);
    }
  }

  lemma DistinctSum(value: Totals, job: Job, files: seq<SessionFile>)
    requires DistinctIds(files) && IsSum(value, job, files)
    ensures value == AllFiles(Parts(job, files))
  {
    var who :| |who| == |files| && StandIns(files, who) && value == AllFiles(Parts(job, Chosen(files, who)));
    DistinctStandIns(files, who);
  }

  lemma DistinctReport(report: seq<Totals>, job: Job, files: seq<SessionFile>)
    requires DistinctIds(files) && IsSumReport(report, job, files)
    ensures IsReport(report, job, files)
  {
    forall m {:trigger report[m]} | 0 <= m < |MODES|
      ensures report[m] == AllFiles(Parts(InMode(job, MODES[m]), files))
    {
      DistinctSum(report[m], InMode(job, MODES[m]), files);
    }
  }

  /** The modes from `m` on have their checkpoints still as they were. */
  ghost predicate Untouched(before: map<Key, Entry>, after: map<Key, Entry>, m: nat) {
    forall l, stem :: m <= l < |MODES| ==> LoadFrom(before, Key(MODES[l], stem)) == LoadFrom(after, Key(MODES[l], stem))
  }

  lemma UntouchedNext(before: map<Key, Entry>, now: map<Key, Entry>, after: map<Key, Entry>, m: nat)
    requires m < |MODES| && Untouched(before, now, m) && OnlyModeChanged(now, after, MODES[m])
    ensures Untouched(before, after, m + 1)
  {
    forall l, stem | m + 1 <= l < |MODES|
      ensures LoadFrom(before, Key(MODES[l], stem)) == LoadFrom(after, Key(MODES[l], stem))
    {
      assert Key(MODES[l], stem).mode != MODES[m];
    }
  }

  /** What a mode counts depends on its own checkpoints only. */
  lemma CountedInMode(before: map<Key, Entry>, after: map<Key, Entry>, m: nat, files: seq<SessionFile>,
                      own: seq<Totals>, pooled: bool)
    requires m < |MODES| && |own| == |files| && Untouched(before, after, m)
    ensures Counted(before, MODES[m], files, own, pooled) == Counted(after, MODES[m], files, own, pooled)
  {
    var a, b := Counted(before, MODES[m], files, own, pooled), Counted(after, MODES[m], files, own, pooled);
    forall k | 0 <= k < |files|
      ensures a[k] == b[k]
    {
      assert LoadFrom(before, Key(MODES[m], files[k].stem)) == LoadFrom(after, Key(MODES[m], files[k].stem));
    }
  }

  /** One mode of a run. */
  method SimulateModeOf(job: Job, m: nat, files: seq<SessionFile>, dir: CheckpointDir, run: Run,
                        ghost start: map<Key, Entry>)
    returns (result: Option<Totals>)
    requires m < |MODES| && Untouched(start, dir.entries, m)
    modifies dir
    ensures result.Some? ==> result.value == SumFrom(start, job, MODES[m], files, Pooled(run.workers, files))
    ensures Undisturbed(run, files) ==> result.Some?
    ensures SoundForAll(old(dir.entries), job, files) ==> SoundForAll(dir.entries, job, files)
    ensures Untouched(start, dir.entries, m + 1)
  {
    var stop := if run.killedIn == Some(m) then run.stop else |files|;
    ghost var before, own := dir.entries, OwnIn(job, MODES[m], files);
    CountedInMode(start, before, m, files, own, Pooled(run.workers, files));
    result := SimulateMode(InMode(job, MODES[m]), files, dir, Attempt(run.workers, stop, run.torn), own);
    UntouchedNext(start, before, dir.entries, m);
    if SoundForAll(before, job, files) {
      ModeKeepsSound(before, dir.entries, job, files, MODES[m]);
    }
  }

  /** `simulate_session_files`: one summary per mode, or nothing if the run is killed. */
  method SimulateSessionFiles(job: Job, files: seq<SessionFile>, dir: CheckpointDir, run: Run)
    returns (report: Option<seq<Totals>>)
    modifies dir
    ensures report.Some? ==> IsReportFrom(report.value, old(dir.entries), job, files, Pooled(run.workers, files))
    ensures Undisturbed(run, files) ==> report.Some?
    ensures SoundForAll(old(dir.entries), job, files) ==> SoundForAll(dir.entries, job, files)
  {
    ghost var start := dir.entries;
    var summaries := [];
    for m := 0 to |MODES|
      invariant SoundForAll(start, job, files) ==> SoundForAll(dir.entries, job, files)
      invariant Untouched(start, dir.entries, m)
      invariant |summaries| == m
      invariant forall l {:trigger summaries[l]} :: 0 <= l < m ==>
        summaries[l] == SumFrom(start, job, MODES[l], files, Pooled(run.workers, files))
    {
      var result := SimulateModeOf(job, m, files, dir, run, start);
      if result.None? {
        return None;
      }
      summaries := summaries + [result.value];
    }
    report := Some(summaries);
  }

  lemma NothingIsSound(job: Job, files: seq<SessionFile>)
    ensures SoundForAll(map[], job, files)
  {
  }

  /** What a finished run may report after any history that began with an empty directory. */
  ghost predicate IsTrueReport(report: seq<Totals>, job: Job, files: seq<SessionFile>) {
    && IsSumReport(report, job, files)
    && (DistinctIds(files) ==> IsReport(report, job, files))
  }

  /** The next run of the program. */
  method RunAgain(job: Job, files: seq<SessionFile>, dir: CheckpointDir, run: Run)
    returns (report: Option<seq<Totals>>)
    requires SoundForAll(dir.entries, job, files)
    modifies dir
    ensures SoundForAll(dir.entries, job, files)
    ensures report.Some? ==> IsReportFrom(report.value, old(dir.entries), job, files, Pooled(run.workers, files))
    ensures report.Some? ==> IsTrueReport(report.value, job, files)
    ensures Undisturbed(run, files) ==> report.Some?
  {
    ghost var start := dir.entries;
    report := SimulateSessionFiles(job, files, dir, run);
    if report.Some? {
      SoundReport(report.value, start, job, files, Pooled(run.workers, files));
      if DistinctIds(files) {
        DistinctReport(report.value, job, files);
      }
    }
  }

  /** From an empty checkpoint directory, however often the program is killed and started again, with
      whatever workers: every run that finishes counts each file once, by the summary of a file with
      its session id. With distinct session ids that is the report of one undisturbed run, and a run
      that is left alone does finish. */
  method Resume(job: Job, files: seq<SessionFile>, runs: seq<Run>) returns (reports: seq<Option<seq<Totals>>>)
    ensures |reports| == |runs|
    ensures forall r :: 0 <= r < |runs| && reports[r].Some? ==> IsTrueReport(reports[r].value, job, files)
    ensures forall r :: 0 <= r < |runs| && Undisturbed(runs[r], files) ==> reports[r].Some?
    ensures |runs| > 0 && reports[0].Some? ==>
      IsReportFrom(reports[0].value, map[], job, files, Pooled(runs[0].workers, files))
  {
    var dir := new CheckpointDir();
    NothingIsSound(job, files);
    reports := [];
    for r := 0 to |runs|
      invariant fresh(dir) && SoundForAll(dir.entries, job, files)
      invariant |reports| == r && (r == 0 ==> dir.entries == map[])
      invariant forall q :: 0 <= q < r && reports[q].Some? ==> IsTrueReport(reports[q].value, job, files)
      invariant forall q :: 0 <= q < r && Undisturbed(runs[q], files) ==> reports[q].Some?
      invariant r > 0 && reports[0].Some? ==>
        IsReportFrom(reports[0].value, map[], job, files, Pooled(runs[0].workers, files))
    {
      var report := RunAgain(job, files, dir, runs[r]);
      reports := reports + [report];
    }
  }
}
