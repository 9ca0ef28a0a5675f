/** The TTL analysis: cache-creation tokens by the idle gap before them, and what two caching
    strategies would have cost. */
module TtlAnalysis {
  import opened Messages

  // ----- Log files -----

  /** A usage record. Times are in microseconds; a time without a zone cannot be compared with one
      that has a zone. An empty `messageId` stands for none. */
  datatype Turn = Turn(time: int, zoned: bool, tokens: int, model: string, messageId: string)

  /** A line without a usable record is `None`. */
  type Line = Option<Turn>

  /** The lines read, and whether reading failed after them. */
  datatype File = File(lines: seq<Line>, readFails: bool)

  predicate Fresh(line: Line, seen: set<string>) {
    line.Some? && (line.value.messageId == "" || line.value.messageId !in seen)
  }

  /** The ids seen once these lines have been read. */
  function SeenAfter(lines: seq<Line>, seen: set<string>): set<string> {
    if lines == [] then seen
    else
      var before, last := SeenAfter(lines[..|lines| - 1], seen), lines[|lines| - 1];
      if last.Some? && last.value.messageId != "" then before + {last.value.messageId} else before
  }

  /** The records whose id had not been seen. */
  function Kept(lines: seq<Line>, seen: set<string>): seq<Turn> {
    if lines == [] then []
    else
      var init, last := lines[..|lines| - 1], lines[|lines| - 1];
      Kept(init, seen) + if Fresh(last, SeenAfter(init, seen)) then [last.value] else []
  }

  /** All times have a zone, or none has. */
  predicate Comparable(turns: seq<Turn>) {
    forall i :: 0 <= i < |turns| ==> turns[i].zoned == turns[0].zoned
  }

  // ----- Sorting by time -----

  /** Puts a turn behind all that are not later. */
  function Inserted(sorted: seq<Turn>, turn: Turn): seq<Turn> {
    if sorted == [] || sorted[|sorted| - 1].time <= turn.time then sorted + [turn]
    else Inserted(sorted[..|sorted| - 1], turn) + [sorted[|sorted| - 1]]
  }

  function SortedByTime(turns: seq<Turn>): seq<Turn> {
    if turns == [] then [] else Inserted(SortedByTime(turns[..|turns| - 1]), turns[|turns| - 1])
  }

  ghost predicate Ordered(turns: seq<Turn>) {
    forall i, j :: 0 <= i < j < |turns| ==> turns[i].time <= turns[j].time
  }

  function At(turns: seq<Turn>, time: int): seq<Turn> {
    if turns == [] then []
    else At(turns[..|turns| - 1], time) + if turns[|turns| - 1].time == time then [turns[|turns| - 1]] else []
  }

  lemma AtLast(turns: seq<Turn>, turn: Turn, time: int)
    ensures At(turns + [turn], time) == At(turns, time) + if turn.time == time then [turn] else []
  {
    assert (turns + [turn])[..|turns|] == turns;
  }

  lemma {:induction false} InsertedKeeps(sorted: seq<Turn>, turn: Turn)
    ensures multiset(Inserted(sorted, turn)) == multiset(sorted) + multiset{turn}
  {
    if sorted != [] && sorted[|sorted| - 1].time > turn.time {
      var init, last := sorted[..|sorted| - 1], sorted[|sorted| - 1];
      InsertedKeeps(init, turn);
      assert sorted == init + [last];
    }
  }

  lemma {:induction false} InsertedBelow(sorted: seq<Turn>, turn: Turn, bound: int)
    requires turn.time <= bound && forall i :: 0 <= i < |sorted| ==> sorted[i].time <= bound
    ensures forall i :: 0 <= i < |Inserted(sorted, turn)| ==> Inserted(sorted, turn)[i].time <= bound
  {
    if sorted != [] && sorted[|sorted| - 1].time > turn.time {
      InsertedBelow(sorted[..|sorted| - 1], turn, bound);
    }
  }

  lemma {:induction false} InsertedOrdered(sorted: seq<Turn>, turn: Turn)
    requires Ordered(sorted)
    ensures Ordered(Inserted(sorted, turn))
  {
    if sorted != [] && sorted[|sorted| - 1].time > turn.time {
      var init, last := sorted[..|sorted| - 1], sorted[|sorted| - 1];
      InsertedOrdered(init, turn);
      InsertedBelow(init, turn, last.time);
    }
  }

  lemma {:induction false} InsertedStable(sorted: seq<Turn>, turn: Turn, time: int)
    ensures At(Inserted(sorted, turn), time) == At(sorted, time) + if turn.time == time then [turn] else []
  {
    if sorted != [] && sorted[|sorted| - 1].time > turn.time {
      var init, last := sorted[..|sorted| - 1], sorted[|sorted| - 1];
      InsertedStable(init, turn, time);
      AtLast(Inserted(init, turn), last, time);
    } else {
      AtLast(sorted, turn, time);
    }
  }

  /** Sorting orders the turns. */
  lemma {:induction false} SortedIsOrdered(turns: seq<Turn>)
    ensures Ordered(SortedByTime(turns))
  {
    if turns != [] {
      SortedIsOrdered(turns[..|turns| - 1]);
      InsertedOrdered(SortedByTime(turns[..|turns| - 1]), turns[|turns| - 1]);
    }
  }

  lemma MultisetOfLast(turns: seq<Turn>)
    requires turns != []
    ensures multiset(turns) == multiset(turns[..|turns| - 1]) + multiset{turns[|turns| - 1]}
  {
    assert turns == turns[..|turns| - 1] + [turns[|turns| - 1]];
  }

  /** It keeps them all. */
  lemma {:induction false} SortedIsPermutation(turns: seq<Turn>)
    ensures multiset(SortedByTime(turns)) == multiset(turns)
  {
    if turns != [] {
      var init, last := turns[..|turns| - 1], turns[|turns| - 1];
      SortedIsPermutation(init);
      InsertedKeeps(SortedByTime(init), last);
      MultisetOfLast(turns);
    }
  }

  /** And it keeps the order of those at one time. */
  lemma {:induction false} SortedIsStable(turns: seq<Turn>, time: int)
    ensures At(SortedByTime(turns), time) == At(turns, time)
  {
    if turns != [] {
      SortedIsStable(turns[..|turns| - 1], time);
      InsertedStable(SortedByTime(turns[..|turns| - 1]), turns[|turns| - 1], time);
    }
  }

  // ----- Reading a file -----

  /** What a file contributes, or nothing if it fails: reading it, or sorting times that cannot be compared. */
  function TurnsIn(file: File, seen: set<string>): Option<seq<Turn>> {
    match file
    case File(lines, readFails) =>
      var kept := Kept(lines, seen);
      if readFails || !Comparable(kept) then None else Some(SortedByTime(kept))
  }

  /** `turns_of`. The ids of a file that fails stay seen. */
  method TurnsOf(file: File, seen: set<string>) returns (turns: Option<seq<Turn>>, seen': set<string>)
    ensures turns == TurnsIn(file, seen)
    ensures seen' == SeenAfter(file.lines, seen)
  {
    var kept := [];
    seen' := seen;
    for i := 0 to |file.lines|
      invariant kept == Kept(file.lines[..i], seen) && seen' == SeenAfter(file.lines[..i], seen)
    {
      assert file.lines[..i + 1][..i] == file.lines[..i];
      var line := file.lines[i];
      if line.Some? {
        var id := line.value.messageId;
        if id == "" {
          kept := kept + [line.value];
        } else if id !in seen' {
          seen' := seen' + {id};
          kept := kept + [line.value];
        } else {
          assert seen' + {id} == seen';
        }
      }
    }
    assert file.lines[..|file.lines|] == file.lines;
    turns := if file.readFails || !Comparable(kept) then None else Some(SortedByTime(kept));
  }

  // ----- Sessions -----

  /** The ids seen once the first `k` files have been read. */
  function SeenBefore(files: seq<File>, k: nat): set<string>
    requires k <= |files|
  {
    if k == 0 then {} else SeenAfter(files[k - 1].lines, SeenBefore(files, k - 1))
  }

  function TurnsAt(files: seq<File>, k: nat): Option<seq<Turn>>
    requires k < |files|
  {
    TurnsIn(files[k], SeenBefore(files, k))
  }

  /** The sessions among the first `k` files: those with at least two turns. */
  function Sessions(files: seq<File>, k: nat): seq<seq<Turn>>
    requires k <= |files|
  {
    if k == 0 then []
    else
      var turns := TurnsAt(files, k - 1);
      Sessions(files, k - 1) + if turns.Some? && |turns.value| >= 2 then [turns.value] else []
  }

  // ----- Entries: a turn, and the gap it is charged to -----

  datatype Bucket = Under5 | From5 | From15 | From30 | From60 | From240

  const MINUTE := 60000000

  function BucketOf(gap: int): Bucket {
    if gap < 5 * MINUTE then Under5
    else if gap < 15 * MINUTE then From5
    else if gap < 30 * MINUTE then From15
    else if gap < 60 * MINUTE then From30
    else if gap < 240 * MINUTE then From60
    else From240
  }

  /** The first turn of a session has no gap. */
  datatype Slot = First | Gap(bucket: Bucket)

  datatype Entry = Entry(slot: Slot, model: string, tokens: int)

  function EntryAt(session: seq<Turn>, i: nat): Entry
    requires i < |session|
  {
    var slot := if i == 0 then First else Gap(BucketOf(session[i].time - session[i - 1].time));
    Entry(slot, session[i].model, session[i].tokens)
  }

  function EntriesOf(session: seq<Turn>, k: nat): seq<Entry>
    requires k <= |session|
  {
    if k == 0 then [] else EntriesOf(session, k - 1) + [EntryAt(session, k - 1)]
  }

  function AllEntries(sessions: seq<seq<Turn>>): seq<Entry> {
    if sessions == [] then []
    else
      var last := sessions[|sessions| - 1];
      AllEntries(sessions[..|sessions| - 1]) + EntriesOf(last, |last|)
  }

  /** The tokens of a model in a slot. */
  function SlotTokens(entries: seq<Entry>, slot: Slot, model: string): int {
    if entries == [] then 0
    else
      var last := entries[|entries| - 1];
      SlotTokens(entries[..|entries| - 1], slot, model)
        + if last.slot == slot && last.model == model then last.tokens else 0
  }

  /** The token counts recorded in a slot, in order. */
  function SlotList(entries: seq<Entry>, slot: Slot): seq<int> {
    if entries == [] then []
    else
      var last := entries[|entries| - 1];
      SlotList(entries[..|entries| - 1], slot) + if last.slot == slot then [last.tokens] else []
  }

  // ----- The accumulation loop -----

  type Counts = map<string, int>

  /** A dictionary that starts at zero. */
  function Get(counts: Counts, model: string): int {
    if model in counts then counts[model] else 0
  }

  function ListIn(lists: map<Bucket, seq<int>>, bucket: Bucket): seq<int> {
    if bucket in lists then lists[bucket] else []
  }

  function CountsIn(byModel: map<Bucket, Counts>, bucket: Bucket): Counts {
    if bucket in byModel then byModel[bucket] else map[]
  }

  ghost predicate CountsHold(counts: Counts, entries: seq<Entry>, slot: Slot) {
    forall model :: Get(counts, model) == SlotTokens(entries, slot, model)
  }

  ghost predicate ListHolds(list: seq<int>, entries: seq<Entry>, slot: Slot) {
    list == SlotList(entries, slot)
  }

  lemma SlotTokensLast(entries: seq<Entry>, entry: Entry, slot: Slot, model: string)
    ensures SlotTokens(entries + [entry], slot, model)
         == SlotTokens(entries, slot, model) + if entry.slot == slot && entry.model == model then entry.tokens else 0
  {
    assert (entries + [entry])[..|entries|] == entries;
  }

  lemma ListAdded(list: seq<int>, entries: seq<Entry>, slot: Slot, entry: Entry)
    requires ListHolds(list, entries, slot)
    ensures ListHolds(if entry.slot == slot then list + [entry.tokens] else list, entries + [entry], slot)
  {
    assert (entries + [entry])[..|entries|] == entries;
  }

  lemma CountsAdded(counts: Counts, entries: seq<Entry>, slot: Slot, entry: Entry)
    requires CountsHold(counts, entries, slot)
    ensures CountsHold(if entry.slot == slot then Increased(counts, entry.model, entry.tokens) else counts,
                       entries + [entry], slot)
  {
    forall model
      ensures Get(if entry.slot == slot then Increased(counts, entry.model, entry.tokens) else counts, model)
           == SlotTokens(entries + [entry], slot, model)
    {
      SlotTokensLast(entries, entry, slot, model);
    }
  }

  ghost predicate ListsHold(lists: map<Bucket, seq<int>>, entries: seq<Entry>) {
    forall bucket :: ListHolds(ListIn(lists, bucket), entries, Gap(bucket))
  }

  ghost predicate ByModelHolds(byModel: map<Bucket, Counts>, entries: seq<Entry>) {
    forall bucket :: CountsHold(CountsIn(byModel, bucket), entries, Gap(bucket))
  }

  function WithToken(lists: map<Bucket, seq<int>>, entry: Entry): map<Bucket, seq<int>> {
    match entry.slot
    case First => lists
    case Gap(bucket) => lists[bucket := ListIn(lists, bucket) + [entry.tokens]]
  }

  function Increased(counts: Counts, model: string, tokens: int): Counts {
    counts[model := Get(counts, model) + tokens]
  }

  function WithCount(byModel: map<Bucket, Counts>, entry: Entry): map<Bucket, Counts> {
    match entry.slot
    case First => byModel
    case Gap(bucket) => byModel[bucket := Increased(CountsIn(byModel, bucket), entry.model, entry.tokens)]
  }

  lemma ListsAdded(lists: map<Bucket, seq<int>>, entries: seq<Entry>, entry: Entry)
    requires ListsHold(lists, entries)
    ensures ListsHold(WithToken(lists, entry), entries + [entry])
  {
    forall bucket
      ensures ListHolds(ListIn(WithToken(lists, entry), bucket), entries + [entry], Gap(bucket))
    {
      ListAdded(ListIn(lists, bucket), entries, Gap(bucket), entry);
    }
  }

  lemma ByModelAdded(byModel: map<Bucket, Counts>, entries: seq<Entry>, entry: Entry)
    requires ByModelHolds(byModel, entries)
    ensures ByModelHolds(WithCount(byModel, entry), entries + [entry])
  {
    forall bucket
      ensures CountsHold(CountsIn(WithCount(byModel, entry), bucket), entries + [entry], Gap(bucket))
    {
      CountsAdded(CountsIn(byModel, bucket), entries, Gap(bucket), entry);
    }
  }

  /** The dictionaries of the analysis. */
  class Tally {
    var sessions: nat
    var lists: map<Bucket, seq<int>>
    var byModel: map<Bucket, Counts>
    var first: Counts

    constructor ()
      ensures Holds([]) && sessions == 0
    {
      sessions := 0;
      lists := map[];
      byModel := map[];
      first := map[];
    }

    /** The dictionaries hold these entries. */
    ghost predicate Holds(entries: seq<Entry>)
      reads this
    {
      ListsHold(lists, entries) && ByModelHolds(byModel, entries) && CountsHold(first, entries, First)
    }

    method AddFirst(model: string, tokens: int, ghost entries: seq<Entry>)
      requires Holds(entries)
      modifies this`first
      ensures Holds(entries + [Entry(First, model, tokens)])
    {
      ListsAdded(lists, entries, Entry(First, model, tokens));
      ByModelAdded(byModel, entries, Entry(First, model, tokens));
      CountsAdded(first, entries, First, Entry(First, model, tokens));
      first := first[model := Get(first, model) + tokens];
    }

    method AddGap(bucket: Bucket, model: string, tokens: int, ghost entries: seq<Entry>, ghost entry: Entry)
      requires Holds(entries) && entry == Entry(Gap(bucket), model, tokens)
      modifies this`lists, this`byModel
      ensures Holds(entries + [entry])
    {
      ListsAdded(lists, entries, entry);
      ByModelAdded(byModel, entries, entry);
      CountsAdded(first, entries, First, entry);
      lists := lists[bucket := ListIn(lists, bucket) + [tokens]];
      byModel := byModel[bucket := Increased(CountsIn(byModel, bucket), model, tokens)];
    }

    /** A session sorted by time has no negative gap, so no turn is skipped. */
    method AddTurn(session: seq<Turn>, i: nat, ghost entries: seq<Entry>)
      requires 0 < i < |session| && session[i - 1].time <= session[i].time && Holds(entries)
      modifies this`lists, this`byModel
      ensures Holds(entries + [EntryAt(session, i)])
    {
      var gap := session[i].time - session[i - 1].time;
      if gap >= 0 {
        EntryOfGap(session, i);
        AddGap(BucketOf(gap), session[i].model, session[i].tokens, entries, EntryAt(session, i));
      }
    }

    method AddTurns(session: seq<Turn>, ghost entries: seq<Entry>)
      requires Ordered(session) && |session| >= 2 && Holds(entries + EntriesOf(session, 1))
      modifies this`lists, this`byModel
      ensures Holds(entries + EntriesOf(session, |session|))
    {
      for i := 1 to |session|
        invariant Holds(entries + EntriesOf(session, i))
      {
        OneMoreEntry(entries, session, i);
        AddTurn(session, i, entries + EntriesOf(session, i));
      }
    }

    method AddSession(session: seq<Turn>, ghost entries: seq<Entry>)
      requires Holds(entries) && Ordered(session) && |session| >= 2
      modifies this
      ensures Holds(entries + EntriesOf(session, |session|))
      ensures sessions == old(sessions) + 1
    {
      sessions := sessions + 1;
      OneMoreEntry(entries, session, 0);
      AddFirst(session[0].model, session[0].tokens, entries);
      AddTurns(session, entries);
    }
  }

  lemma EntryOfGap(session: seq<Turn>, i: nat)
    requires 0 < i < |session|
    ensures EntryAt(session, i)
         == Entry(Gap(BucketOf(session[i].time - session[i - 1].time)), session[i].model, session[i].tokens)
  {
  }

  lemma OneMoreEntry(entries: seq<Entry>, session: seq<Turn>, i: nat)
    requires i < |session|
    ensures entries + EntriesOf(session, i + 1) == (entries + EntriesOf(session, i)) + [EntryAt(session, i)]
    ensures i == 0 ==> entries + EntriesOf(session, i) == entries
  {
  }

  lemma SessionOrdered(file: File, seen: set<string>)
    requires TurnsIn(file, seen).Some?
    ensures Ordered(TurnsIn(file, seen).value)
  {
    SortedIsOrdered(Kept(file.lines, seen));
  }

  /** The tally once some files have been read. */
  ghost predicate Tallied(tally: Tally, files: seq<File>, k: nat)
    reads tally
    requires k <= |files|
  {
    tally.Holds(AllEntries(Sessions(files, k))) && tally.sessions == |Sessions(files, k)|
  }

  lemma EntriesOfNext(files: seq<File>, k: nat)
    requires k < |files|
    ensures var turns := TurnsAt(files, k);
            if turns.Some? && |turns.value| >= 2 then
              && |Sessions(files, k + 1)| == |Sessions(files, k)| + 1
              && AllEntries(Sessions(files, k + 1))
                == AllEntries(Sessions(files, k)) + EntriesOf(turns.value, |turns.value|)
            else Sessions(files, k + 1) == Sessions(files, k)
  {
    var turns := TurnsAt(files, k);
    if turns.Some? && |turns.value| >= 2 {
      assert Sessions(files, k + 1)[..|Sessions(files, k)|] == Sessions(files, k);
    }
  }

  method AnalyzeFile(tally: Tally, files: seq<File>, k: nat, seen: set<string>) returns (seen': set<string>)
    requires k < |files| && seen == SeenBefore(files, k) && Tallied(tally, files, k)
    modifies tally
    ensures seen' == SeenBefore(files, k + 1) && Tallied(tally, files, k + 1)
  {
    var turns;
    turns, seen' := TurnsOf(files[k], seen);
    EntriesOfNext(files, k);
    if turns.Some? && |turns.value| >= 2 {
      SessionOrdered(files[k], seen);
      tally.AddSession(turns.value, AllEntries(Sessions(files, k)));
    }
  }

  /** The loop over all files. */
  method Analyze(files: seq<File>) returns (tally: Tally)
    ensures fresh(tally) && Tallied(tally, files, |files|)
  {
    tally := new Tally();
    var seen: set<string> := {};
    for k := 0 to |files|
      invariant fresh(tally) && seen == SeenBefore(files, k) && Tallied(tally, files, k)
    {
      seen := AnalyzeFile(tally, files, k, seen);
    }
  }

  // ----- Per-model totals -----

  datatype Category = InWindow | Avoidable | Unavoidable

  /** What the report adds up per model. */
  datatype Aggregate = Aggregate(inWindow: int, avoidable: int, unavoidable: int)

  function CategoryOf(bucket: Bucket): Category {
    match bucket
    case Under5 => InWindow
    case From5 => Avoidable
    case From15 => Avoidable
    case From30 => Avoidable
    case From60 => Unavoidable
    case From240 => Unavoidable
  }

  type Aggregates = map<string, Aggregate>

  function AggregateOf(all: Aggregates, model: string): Aggregate {
    if model in all then all[model] else Aggregate(0, 0, 0)
  }

  function Part(aggregate: Aggregate, category: Category): int {
    match category
    case InWindow => aggregate.inWindow
    case Avoidable => aggregate.avoidable
    case Unavoidable => aggregate.unavoidable
  }

  function Raised(aggregate: Aggregate, category: Category, tokens: int): Aggregate {
    match category
    case InWindow => aggregate.(inWindow := aggregate.inWindow + tokens)
    case Avoidable => aggregate.(avoidable := aggregate.avoidable + tokens)
    case Unavoidable => aggregate.(unavoidable := aggregate.unavoidable + tokens)
  }

  /** `after` is `before` with the counts of `models` added to one category. */
  ghost predicate Credited(before: Aggregates, after: Aggregates, counts: Counts, category: Category,
                           models: set<string>) {
    forall model :: AggregateOf(after, model) ==
      if model in models then Raised(AggregateOf(before, model), category, Get(counts, model))
      else AggregateOf(before, model)
  }

  /** Adds a dictionary of counts to one category, whatever the order of its items. */
  method Credit(all: Aggregates, counts: Counts, category: Category) returns (all': Aggregates)
    ensures Credited(all, all', counts, category, counts.Keys)
  {
    all' := all;
    var rest := counts.Keys;
    while rest != {}
      invariant rest <= counts.Keys
      invariant Credited(all, all', counts, category, counts.Keys - rest)
      decreases |rest|
    {
      var model :| model in rest;
      CreditOne(all, all', counts, category, rest, model);
      all' := all'[model := Raised(AggregateOf(all', model), category, counts[model])];
      rest := rest - {model};
    }
  }

  lemma CreditOne(all: Aggregates, all': Aggregates, counts: Counts, category: Category, rest: set<string>,
                  model: string)
    requires model in rest && rest <= counts.Keys && Credited(all, all', counts, category, counts.Keys - rest)
    ensures Credited(all, all'[model := Raised(AggregateOf(all', model), category, counts[model])], counts, category,
                     counts.Keys - (rest - {model}))
  {
  }

  lemma CreditedEverywhere(before: Aggregates, after: Aggregates, counts: Counts, category: Category, model: string,
                           other: Category)
    requires Credited(before, after, counts, category, counts.Keys)
    ensures Part(AggregateOf(after, model), other)
         == Part(AggregateOf(before, model), other) + if other == category then Get(counts, model) else 0
  {
  }

  const BUCKET_ORDER := [Under5, From5, From15, From30, From60, From240]

  /** The tokens of the first `k` buckets that fall into a category. */
  function BucketSum(byModel: map<Bucket, Counts>, k: nat, category: Category, model: string): int
    requires k <= |BUCKET_ORDER|
  {
    if k == 0 then 0
    else
      var bucket := BUCKET_ORDER[k - 1];
      BucketSum(byModel, k - 1, category, model)
        + if CategoryOf(bucket) == category then Get(CountsIn(byModel, bucket), model) else 0
  }

  /** The first turn of a session has no prior turn to refresh, and is unavoidable. */
  function AggregatedPart(byModel: map<Bucket, Counts>, first: Counts, category: Category, model: string): int {
    BucketSum(byModel, |BUCKET_ORDER|, category, model) + if category == Unavoidable then Get(first, model) else 0
  }

  ghost predicate Summed(all: Aggregates, byModel: map<Bucket, Counts>, k: nat)
    requires k <= |BUCKET_ORDER|
  {
    forall model, category :: Part(AggregateOf(all, model), category) == BucketSum(byModel, k, category, model)
  }

  lemma SummedOneMore(all: Aggregates, all': Aggregates, byModel: map<Bucket, Counts>, k: nat)
    requires k < |BUCKET_ORDER| && Summed(all, byModel, k)
    requires var counts := CountsIn(byModel, BUCKET_ORDER[k]);
             Credited(all, all', counts, CategoryOf(BUCKET_ORDER[k]), counts.Keys)
    ensures Summed(all', byModel, k + 1)
  {
    forall model, category
      ensures Part(AggregateOf(all', model), category) == BucketSum(byModel, k + 1, category, model)
    {
      CreditedEverywhere(all, all', CountsIn(byModel, BUCKET_ORDER[k]), CategoryOf(BUCKET_ORDER[k]), model, category);
    }
  }

  method AggregateByModel(byModel: map<Bucket, Counts>, first: Counts) returns (all: Aggregates)
    ensures forall model, category ::
      Part(AggregateOf(all, model), category) == AggregatedPart(byModel, first, category, model)
  {
    all := map[];
    for k := 0 to |BUCKET_ORDER|
      invariant Summed(all, byModel, k)
    {
      var before := all;
      all := Credit(before, CountsIn(byModel, BUCKET_ORDER[k]), CategoryOf(BUCKET_ORDER[k]));
      SummedOneMore(before, all, byModel, k);
    }
    var gaps := all;
    all := Credit(gaps, first, Unavoidable);
    forall model, category
      ensures Part(AggregateOf(all, model), category) == AggregatedPart(byModel, first, category, model)
    {
      CreditedEverywhere(gaps, all, first, Unavoidable, model, category);
    }
  }

  // ----- What the totals hold -----

  /** The category of a turn: its cache was still alive, would have been alive with an hour's
      lifetime, or had to be written in any case. */
  function CategoryAt(session: seq<Turn>, i: nat): Category
    requires i < |session|
  {
    if i == 0 then Unavoidable
    else
      var gap := session[i].time - session[i - 1].time;
      if gap < 5 * MINUTE then InWindow else if gap < 60 * MINUTE then Avoidable else Unavoidable
  }

  /** The tokens of a model in a category, over the first `k` turns of a session. */
  function SessionPart(session: seq<Turn>, k: nat, category: Category, model: string): int
    requires k <= |session|
  {
    if k == 0 then 0
    else
      SessionPart(session, k - 1, category, model)
      + if session[k - 1].model == model && CategoryAt(session, k - 1) == category then session[k - 1].tokens else 0
  }

  function SessionsPart(sessions: seq<seq<Turn>>, category: Category, model: string): int {
    if sessions == [] then 0
    else
      var last := sessions[|sessions| - 1];
      SessionsPart(sessions[..|sessions| - 1], category, model) + SessionPart(last, |last|, category, model)
  }

  function TokensOf(sessions: seq<seq<Turn>>, model: string): Aggregate {
    Aggregate(SessionsPart(sessions, InWindow, model), SessionsPart(sessions, Avoidable, model),
              SessionsPart(sessions, Unavoidable, model))
  }

  // ----- The buckets of a category hold its turns -----

  function SlotCategory(slot: Slot): Category {
    match slot
    case First => Unavoidable
    case Gap(bucket) => CategoryOf(bucket)
  }

  function CategoryTokens(entries: seq<Entry>, category: Category, model: string): int {
    if entries == [] then 0
    else
      var last := entries[|entries| - 1];
      CategoryTokens(entries[..|entries| - 1], category, model)
      + if last.model == model && SlotCategory(last.slot) == category then last.tokens else 0
  }

  lemma {:induction false} CategoryTokensConcat(a: seq<Entry>, b: seq<Entry>, category: Category, model: string)
    ensures CategoryTokens(a + b, category, model)
         == CategoryTokens(a, category, model) + CategoryTokens(b, category, model)
  {
    if b == [] {
      assert a + b == a;
    } else {
      CategoryTokensConcat(a, b[..|b| - 1], category, model);
      assert (a + b)[..|a + b| - 1] == a + b[..|b| - 1];
    }
  }

  lemma CategoryTokensLast(entries: seq<Entry>, entry: Entry, category: Category, model: string)
    ensures CategoryTokens(entries + [entry], category, model)
         == CategoryTokens(entries, category, model)
            + if entry.model == model && SlotCategory(entry.slot) == category then entry.tokens else 0
  {
    assert (entries + [entry])[..|entries|] == entries;
  }

  /** The bucket of a turn lies in the turn's category. */
  lemma SlotOfTurn(session: seq<Turn>, i: nat)
    requires i < |session|
    ensures SlotCategory(EntryAt(session, i).slot) == CategoryAt(session, i)
  {
  }

  lemma {:induction false} EntriesKeepCategory(session: seq<Turn>, k: nat, category: Category, model: string)
    requires k <= |session|
    ensures CategoryTokens(EntriesOf(session, k), category, model) == SessionPart(session, k, category, model)
  {
    if k > 0 {
      EntriesKeepCategory(session, k - 1, category, model);
      CategoryTokensLast(EntriesOf(session, k - 1), EntryAt(session, k - 1), category, model);
      SlotOfTurn(session, k - 1);
    }
  }

  lemma {:induction false} AllEntriesKeepCategory(sessions: seq<seq<Turn>>, category: Category, model: string)
    ensures CategoryTokens(AllEntries(sessions), category, model) == SessionsPart(sessions, category, model)
  {
    if sessions != [] {
      var init, last := sessions[..|sessions| - 1], sessions[|sessions| - 1];
      AllEntriesKeepCategory(init, category, model);
      CategoryTokensConcat(AllEntries(init), EntriesOf(last, |last|), category, model);
      EntriesKeepCategory(last, |last|, category, model);
    }
  }

  /** The tokens of the slots that make up a category. */
  function SlotSum(entries: seq<Entry>, category: Category, model: string): int {
    match category
    case InWindow => SlotTokens(entries, Gap(Under5), model)
    case Avoidable =>
      SlotTokens(entries, Gap(From5), model) + SlotTokens(entries, Gap(From15), model)
      + SlotTokens(entries, Gap(From30), model)
    case Unavoidable =>
      SlotTokens(entries, Gap(From60), model) + SlotTokens(entries, Gap(From240), model)
      + SlotTokens(entries, First, model)
  }

  /** Each entry is in exactly one slot of its category. */
  lemma {:induction false} SlotsOfCategory(entries: seq<Entry>, category: Category, model: string)
    ensures SlotSum(entries, category, model) == CategoryTokens(entries, category, model)
  {
    if entries != [] {
      SlotsOfCategory(entries[..|entries| - 1], category, model);
      match entries[|entries| - 1].slot
      case First =>
      case Gap(bucket) =>
        match bucket
        case Under5 =>
        case From5 =>
        case From15 =>
        case From30 =>
        case From60 =>
        case From240 =>
    }
  }

  lemma CountsAre(counts: Counts, entries: seq<Entry>, slot: Slot, model: string)
    requires CountsHold(counts, entries, slot)
    ensures Get(counts, model) == SlotTokens(entries, slot, model)
  {
  }

  lemma ByModelIs(byModel: map<Bucket, Counts>, entries: seq<Entry>, bucket: Bucket, model: string)
    requires ByModelHolds(byModel, entries)
    ensures Get(CountsIn(byModel, bucket), model) == SlotTokens(entries, Gap(bucket), model)
  {
    CountsAre(CountsIn(byModel, bucket), entries, Gap(bucket), model);
  }

  lemma SixBuckets(byModel: map<Bucket, Counts>, category: Category, model: string)
    ensures BucketSum(byModel, 6, category, model)
         == match category
            case InWindow => Get(CountsIn(byModel, Under5), model)
            case Avoidable =>
              Get(CountsIn(byModel, From5), model) + Get(CountsIn(byModel, From15), model)
                + Get(CountsIn(byModel, From30), model)
            case Unavoidable => Get(CountsIn(byModel, From60), model) + Get(CountsIn(byModel, From240), model)
  {
    assert BucketSum(byModel, 1, category, model)
        == if category == InWindow then Get(CountsIn(byModel, Under5), model) else 0;
    assert BucketSum(byModel, 3, category, model) == BucketSum(byModel, 1, category, model)
      + if category != Avoidable then 0
        else Get(CountsIn(byModel, From5), model) + Get(CountsIn(byModel, From15), model);
    assert BucketSum(byModel, 5, category, model) == BucketSum(byModel, 3, category, model)
      + if category == Avoidable then Get(CountsIn(byModel, From30), model)
        else if category == Unavoidable then Get(CountsIn(byModel, From60), model) else 0;
  }

  /** Each category adds up exactly the turns whose gap puts them there. */
  lemma CategoryHolds(sessions: seq<seq<Turn>>, byModel: map<Bucket, Counts>, first: Counts, category: Category,
                      model: string)
    requires ByModelHolds(byModel, AllEntries(sessions)) && CountsHold(first, AllEntries(sessions), First)
    ensures AggregatedPart(byModel, first, category, model) == SessionsPart(sessions, category, model)
  {
    var entries := AllEntries(sessions);
    AllEntriesKeepCategory(sessions, category, model);
    SlotsOfCategory(entries, category, model);
    CountsAre(first, entries, First, model);
    ByModelIs(byModel, entries, Under5, model);
    ByModelIs(byModel, entries, From5, model);
    ByModelIs(byModel, entries, From15, model);
    ByModelIs(byModel, entries, From30, model);
    ByModelIs(byModel, entries, From60, model);
    ByModelIs(byModel, entries, From240, model);
    SixBuckets(byModel, category, model);
  }

  // ----- No token is lost -----

  function ModelTokens(turns: seq<Turn>, model: string): int {
    if turns == [] then 0
    else
      var last := turns[|turns| - 1];
      ModelTokens(turns[..|turns| - 1], model) + if last.model == model then last.tokens else 0
  }

  /** The cache-creation tokens of a model over all sessions. */
  function SessionTokens(sessions: seq<seq<Turn>>, model: string): int {
    if sessions == [] then 0
    else SessionTokens(sessions[..|sessions| - 1], model) + ModelTokens(sessions[|sessions| - 1], model)
  }

  lemma {:induction false} PartsOfSession(session: seq<Turn>, k: nat, model: string)
    requires k <= |session|
    ensures SessionPart(session, k, InWindow, model) + SessionPart(session, k, Avoidable, model)
            + SessionPart(session, k, Unavoidable, model)
         == ModelTokens(session[..k], model)
  {
    if k > 0 {
      PartsOfSession(session, k - 1, model);
      assert session[..k][..k - 1] == session[..k - 1];
    }
  }

  /** In-window, avoidable and unavoidable tokens of a model add up to the cache-creation tokens of
      all its deduplicated turns in sessions of two turns or more. */
  lemma {:induction false} TokensConserved(sessions: seq<seq<Turn>>, model: string)
    ensures var tokens := TokensOf(sessions, model);
            tokens.inWindow + tokens.avoidable + tokens.unavoidable == SessionTokens(sessions, model)
  {
    if sessions != [] {
      var init, last := sessions[..|sessions| - 1], sessions[|sessions| - 1];
      TokensConserved(init, model);
      PartsOfSession(last, |last|, model);
      assert last[..|last|] == last;
    }
  }

  lemma {:induction false} InsertedTokens(sorted: seq<Turn>, turn: Turn, model: string)
    ensures ModelTokens(Inserted(sorted, turn), model)
         == ModelTokens(sorted, model) + if turn.model == model then turn.tokens else 0
  {
    if sorted != [] && sorted[|sorted| - 1].time > turn.time {
      var init, last := sorted[..|sorted| - 1], sorted[|sorted| - 1];
      InsertedTokens(init, turn, model);
      assert (Inserted(init, turn) + [last])[..|Inserted(init, turn)|] == Inserted(init, turn);
    } else {
      assert (sorted + [turn])[..|sorted|] == sorted;
    }
  }

  lemma {:induction false} SortedTokens(turns: seq<Turn>, model: string)
    ensures ModelTokens(SortedByTime(turns), model) == ModelTokens(turns, model)
    ensures |SortedByTime(turns)| == |turns|
  {
    SortedIsPermutation(turns);
    assert |multiset(SortedByTime(turns))| == |multiset(turns)|;
    if turns != [] {
      SortedTokens(turns[..|turns| - 1], model);
      InsertedTokens(SortedByTime(turns[..|turns| - 1]), turns[|turns| - 1], model);
    }
  }

  /** The records of a file that count: kept by the dedupe, two or more, and the file does not fail. */
  function Counted(file: File, seen: set<string>, model: string): int {
    match file
    case File(lines, readFails) =>
      var kept := Kept(lines, seen);
      if !readFails && Comparable(kept) && |kept| >= 2 then ModelTokens(kept, model) else 0
  }

  function CountedTokens(files: seq<File>, k: nat, model: string): int
    requires k <= |files|
  {
    if k == 0 then 0 else CountedTokens(files, k - 1, model) + Counted(files[k - 1], SeenBefore(files, k - 1), model)
  }

  lemma CountedInFile(file: File, seen: set<string>, model: string)
    ensures Counted(file, seen, model)
         == match TurnsIn(file, seen)
            case Some(turns) => if |turns| >= 2 then ModelTokens(turns, model) else 0
            case None => 0
  {
    SortedTokens(Kept(file.lines, seen), model);
  }

  /** The sessions of the first `k` files hold the tokens of their records that count. */
  ghost predicate SessionsHold(files: seq<File>, k: nat, model: string)
    requires k <= |files|
  {
    SessionTokens(Sessions(files, k), model) == CountedTokens(files, k, model)
  }

  lemma NoSessionsHold(files: seq<File>, k: nat, model: string)
    requires k == 0
    ensures SessionsHold(files, k, model)
  {
  }

  lemma SessionTokensLast(sessions: seq<seq<Turn>>, session: seq<Turn>, model: string)
    ensures SessionTokens(sessions + [session], model) == SessionTokens(sessions, model) + ModelTokens(session, model)
  {
    assert (sessions + [session])[..|sessions|] == sessions;
  }

  lemma SessionsNext(files: seq<File>, k: nat, model: string)
    requires k < |files| && SessionsHold(files, k, model)
    ensures SessionsHold(files, k + 1, model)
  {
    CountedInFile(files[k], SeenBefore(files, k), model);
    var turns := TurnsAt(files, k);
    if turns.Some? && |turns.value| >= 2 {
      SessionTokensLast(Sessions(files, k), turns.value, model);
    } else {
      assert Sessions(files, k + 1) == Sessions(files, k);
    }
  }

  lemma {:induction false} SessionsCount(files: seq<File>, k: nat, model: string)
    requires k <= |files|
    ensures SessionsHold(files, k, model)
  {
    if k == 0 {
      NoSessionsHold(files, k, model);
    } else {
      SessionsCount(files, k - 1, model);
      SessionsNext(files, k - 1, model);
    }
  }

  lemma AggregateIs(all: Aggregates, sessions: seq<seq<Turn>>, model: string)
    requires forall category :: Part(AggregateOf(all, model), category) == SessionsPart(sessions, category, model)
    ensures AggregateOf(all, model) == TokensOf(sessions, model)
  {
    assert Part(AggregateOf(all, model), InWindow) == SessionsPart(sessions, InWindow, model);
    assert Part(AggregateOf(all, model), Avoidable) == SessionsPart(sessions, Avoidable, model);
    assert Part(AggregateOf(all, model), Unavoidable) == SessionsPart(sessions, Unavoidable, model);
  }

  /** The whole analysis: each of a model's three totals holds the tokens of the turns whose gap puts
      them there, and together they hold the tokens of all records that count. */
  method Report(files: seq<File>) returns (all: Aggregates, sessions: nat)
    ensures forall model :: AggregateOf(all, model) == TokensOf(Sessions(files, |files|), model)
    ensures forall model ::
      AggregateOf(all, model).inWindow + AggregateOf(all, model).avoidable + AggregateOf(all, model).unavoidable
      == CountedTokens(files, |files|, model)
    ensures sessions == |Sessions(files, |files|)|
  {
    var tally := Analyze(files);
    all := AggregateByModel(tally.byModel, tally.first);
    sessions := tally.sessions;
    forall model
      ensures AggregateOf(all, model) == TokensOf(Sessions(files, |files|), model)
      ensures SessionTokens(Sessions(files, |files|), model) == CountedTokens(files, |files|, model)
    {
      forall category
        ensures Part(AggregateOf(all, model), category) == SessionsPart(Sessions(files, |files|), category, model)
      {
        CategoryHolds(Sessions(files, |files|), tally.byModel, tally.first, category, model);
      }
      AggregateIs(all, Sessions(files, |files|), model);
      SessionsCount(files, |files|, model);
    }
    forall model
      ensures var tokens := AggregateOf(all, model);
              tokens.inWindow + tokens.avoidable + tokens.unavoidable == CountedTokens(files, |files|, model)
    {
      TokensConserved(Sessions(files, |files|), model);
    }
  }

  // ----- No message is counted twice -----

  /** The records kept from the first `k` files, before any sorting. */
  function AllKept(files: seq<File>, k: nat): seq<Turn>
    requires k <= |files|
  {
    if k == 0 then [] else AllKept(files, k - 1) + Kept(files[k - 1].lines, SeenBefore(files, k - 1))
  }

  ghost predicate IdsDistinct(turns: seq<Turn>) {
    forall i, j :: 0 <= i < j < |turns| && turns[i].messageId != "" ==> turns[i].messageId != turns[j].messageId
  }

  /** These are exactly the ids of the kept records. */
  ghost predicate IdsAre(turns: seq<Turn>, ids: set<string>) {
    && "" !in ids
    && (forall i :: 0 <= i < |turns| && turns[i].messageId != "" ==> turns[i].messageId in ids)
    && (forall id :: id in ids ==> exists i :: 0 <= i < |turns| && turns[i].messageId == id)
  }

  lemma KeepOne(turns: seq<Turn>, ids: set<string>, turn: Turn)
    requires IdsDistinct(turns) && IdsAre(turns, ids)
    requires turn.messageId == "" || turn.messageId !in ids
    ensures IdsDistinct(turns + [turn])
    ensures IdsAre(turns + [turn], if turn.messageId == "" then ids else ids + {turn.messageId})
  {
    var turns' := turns + [turn];
    assert turns'[|turns|] == turn;
    forall id | id in ids
      ensures exists i :: 0 <= i < |turns'| && turns'[i].messageId == id
    {
      var i :| 0 <= i < |turns| && turns[i].messageId == id;
      assert turns'[i] == turns[i];
    }
  }

  lemma {:induction false} KeptOnce(earlier: seq<Turn>, lines: seq<Line>, seen: set<string>)
    requires IdsDistinct(earlier) && IdsAre(earlier, seen)
    ensures IdsDistinct(earlier + Kept(lines, seen)) && IdsAre(earlier + Kept(lines, seen), SeenAfter(lines, seen))
  {
    if lines == [] {
      assert earlier + [] == earlier;
    } else {
      var init, last := lines[..|lines| - 1], lines[|lines| - 1];
      KeptOnce(earlier, init, seen);
      var kept, ids := earlier + Kept(init, seen), SeenAfter(init, seen);
      if Fresh(last, ids) {
        KeepOne(kept, ids, last.value);
        assert earlier + Kept(lines, seen) == kept + [last.value];
      } else {
        assert earlier + Kept(lines, seen) == kept;
        assert last.Some? ==> ids + {last.value.messageId} == ids;
      }
    }
  }

  /** Over all files no two kept records share a message id, and every id that occurs is kept once,
      although a file that fails takes its records with it. */
  lemma {:induction false} NoMessageTwice(files: seq<File>, k: nat)
    requires k <= |files|
    ensures IdsDistinct(AllKept(files, k)) && IdsAre(AllKept(files, k), SeenBefore(files, k))
  {
    if k > 0 {
      NoMessageTwice(files, k - 1);
      KeptOnce(AllKept(files, k - 1), files[k - 1].lines, SeenBefore(files, k - 1));
    }
  }

  lemma {:induction false} SeenExactly(lines: seq<Line>, seen: set<string>, id: string)
    ensures id in SeenAfter(lines, seen)
       <==> id in seen || exists i :: 0 <= i < |lines| && lines[i].Some? && lines[i].value.messageId == id != ""
  {
    if lines != [] {
      var init := lines[..|lines| - 1];
      SeenExactly(init, seen, id);
      if exists i :: 0 <= i < |lines| && lines[i].Some? && lines[i].value.messageId == id != "" {
        var i :| 0 <= i < |lines| && lines[i].Some? && lines[i].value.messageId == id != "";
        assert i < |init| ==> init[i] == lines[i];
      }
      if exists i :: 0 <= i < |init| && init[i].Some? && init[i].value.messageId == id != "" {
        var i :| 0 <= i < |init| && init[i].Some? && init[i].value.messageId == id != "";
        assert lines[i] == init[i];
      }
    }
  }
}
