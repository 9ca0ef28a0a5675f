/** What the merged report of a whole run keeps, from the lines of the transcripts on. */
module RunTheorems {
  import Loader
  import opened Messages
  import opened Replay
  import opened ReplayTheorems
  import opened Merging
  import opened Checkpoints

  // ----- Session files as loaded -----

  /** A transcript on disk. */
  datatype Transcript = Transcript(stem: string, project: string, log: Loader.Log)

  function TurnsOf(loaded: seq<Loader.LoadedTurn>): (turns: seq<Turn>)
    ensures |turns| == |loaded|
    ensures forall i {:trigger turns[i]} :: 0 <= i < |loaded| ==> turns[i] == loaded[i].turn
  {
    seq(|loaded|, i requires 0 <= i < |loaded| => loaded[i].turn)
  }

  /** The session file of a transcript that the loader survives. */
  ghost function FileOf(transcript: Transcript): SessionFile {
    var outcome := Loader.OutcomeOf(transcript.log);
    SessionFile(transcript.stem, transcript.project, if outcome.Replayed? then Some(TurnsOf(outcome.turns)) else None)
  }

  ghost function FilesOf(transcripts: seq<Transcript>): (files: seq<SessionFile>)
    ensures |files| == |transcripts|
    ensures forall f {:trigger files[f]} :: 0 <= f < |files| ==> files[f] == FileOf(transcripts[f])
  {
    seq(|transcripts|, f requires 0 <= f < |transcripts| => FileOf(transcripts[f]))
  }

  /** A transcript that cannot be loaded ends the program before anything is simulated. */
  ghost predicate AnyRaised(transcripts: seq<Transcript>) {
    exists f :: 0 <= f < |transcripts| && Loader.OutcomeOf(transcripts[f].log).Raised?
  }

  /** Reads a transcript with the streaming loader. */
  method LoadFile(transcript: Transcript) returns (file: Option<SessionFile>)
    ensures file == if Loader.OutcomeOf(transcript.log).Raised? then None else Some(FileOf(transcript))
  {
    var outcome := Loader.LoadSession(transcript.log);
    match outcome
    case Raised => file := None;
    case NoReplay => file := Some(SessionFile(transcript.stem, transcript.project, None));
    case Replayed(turns) => file := Some(SessionFile(transcript.stem, transcript.project, Some(TurnsOf(turns))));
  }

  method LoadFiles(transcripts: seq<Transcript>) returns (files: Option<seq<SessionFile>>)
    ensures files == if AnyRaised(transcripts) then None else Some(FilesOf(transcripts))
  {
    var loaded := [];
    for f := 0 to |transcripts|
      invariant |loaded| == f
      invariant forall g {:trigger loaded[g]} :: 0 <= g < f ==>
        loaded[g] == FileOf(transcripts[g]) && !Loader.OutcomeOf(transcripts[g].log).Raised?
    {
      var file := LoadFile(transcripts[f]);
      if file.None? {
        return None;
      }
      loaded := loaded + [file.value];
    }
    assert loaded == FilesOf(transcripts);
    assert forall g :: 0 <= g < |transcripts| ==> loaded[g] == FileOf(transcripts[g]);
    files := Some(loaded);
  }

  predicate Loaded(file: SessionFile) {
    file.turns.Some? ==> file.turns.value != []
  }

  /** The loader gives a replay only to a transcript with turns. */
  lemma FileIsLoaded(transcript: Transcript)
    ensures Loaded(FileOf(transcript))
  {
  }

  // ----- Accounts -----

  /** Tokens and counters add up: every request but the first of each session is eligible or expired. */
  ghost predicate Accounts(t: Totals) {
    match t
    case Totals(sessions, requests, tokens, _, CacheTurns(eligible, busts, ttlExpiries), rewrites) =>
      && Conserved(tokens) && Partitioned(rewrites)
      && rewrites.outcomes.busting <= busts <= eligible
      && eligible + ttlExpiries + sessions == requests
  }

  lemma {:induction false} SessionAccounts(setup: Setup, requests: seq<Request>)
    requires requests != []
    ensures Accounts(Summarize(setup, requests))
  {
    Conservation(setup, requests);
    CounterPartition(setup, requests);
  }

  lemma NothingAccounts()
    ensures Accounts(NothingScored(0))
  {
  }

  lemma {:induction false} ReplayAccounts(job: Job, turns: seq<Turn>)
    requires turns != []
    ensures Accounts(SessionTotals(job.setup, job.proxy, job.mode, Trim(turns, job.recent)))
  {
    SessionAccounts(job.setup, Requests(job.setup, job.proxy, job.mode, Trim(turns, job.recent)));
  }

  lemma {:induction false} PartAccounts(job: Job, file: SessionFile, part: Totals)
    requires Loaded(file) && part == PartOf(job, file)
    ensures Accounts(part)
  {
    if file.turns.Some? {
      ReplayAccounts(job, file.turns.value);
    } else {
      NothingAccounts();
    }
  }

  lemma AccountsAdd(a: Totals, b: Totals)
    requires Accounts(a) && Accounts(b)
    ensures Accounts(Add(a, b))
  {
  }

  lemma {:induction false} MergedAccounts(parts: seq<Totals>, k: nat)
    requires k <= |parts| && forall f :: 0 <= f < |parts| ==> Accounts(parts[f])
    ensures Indices(Upto(k), |parts|) && Accounts(MergedSoFar(parts, Upto(k)))
  {
    if k > 0 {
      MergedAccounts(parts, k - 1);
      assert Upto(k) == Upto(k - 1) + [k - 1];
      MergeOneMore(parts, Upto(k - 1), k - 1);
      AccountsAdd(MergedSoFar(parts, Upto(k - 1)), parts[k - 1]);
    }
  }

  /** In every mode the merged report conserves tokens, and its counters add up. */
  lemma {:induction false} ReportAccounts(job: Job, files: seq<SessionFile>)
    requires forall f :: 0 <= f < |files| ==> Loaded(files[f])
    ensures Accounts(AllFiles(Parts(job, files)))
  {
    var parts := Parts(job, files);
    forall f | 0 <= f < |parts|
      ensures Accounts(parts[f])
    {
      PartAccounts(job, files[f], parts[f]);
    }
    MergedAccounts(parts, |parts|);
  }

  // ----- Stable prefixes -----

  ghost predicate NeverBusts(t: Totals) {
    t.cache.busts == 0 && t.rewrites.outcomes.busting == 0
  }

  lemma {:induction false} MergedNeverBusts(parts: seq<Totals>, k: nat)
    requires k <= |parts| && forall f :: 0 <= f < |parts| ==> NeverBusts(parts[f])
    ensures Indices(Upto(k), |parts|) && NeverBusts(MergedSoFar(parts, Upto(k)))
  {
    if k > 0 {
      MergedNeverBusts(parts, k - 1);
      assert Upto(k) == Upto(k - 1) + [k - 1];
      MergeOneMore(parts, Upto(k - 1), k - 1);
      assert NeverBusts(parts[k - 1]);
    }
  }

  /** Over any sessions and with any compressor, cache mode and the baseline report no cache bust. */
  lemma {:induction false} ReportNeverBusts(job: Job, files: seq<SessionFile>)
    requires job.mode != TokenMode
    ensures NeverBusts(AllFiles(Parts(job, files)))
  {
    var parts := Parts(job, files);
    forall f | 0 <= f < |parts|
      ensures NeverBusts(parts[f])
    {
      if files[f].turns.Some? {
        CacheModeNeverBusts(job.setup, job.proxy, job.mode, Trim(files[f].turns.value, job.recent));
      }
    }
    MergedNeverBusts(parts, |parts|);
  }

  // ----- Costs -----

  /** A file whose turns have one model with a price; which one, may differ from file to file. */
  ghost predicate PricedAs(setup: Setup, file: SessionFile, model: string) {
    file.turns.Some? ==> OneModel(file.turns.value, model) && ChargesInput(setup, model)
  }

  /** The forwarded tokens of the first `k` files at the full input rate of each file's model. */
  function UncachedTotal(setup: Setup, models: seq<string>, parts: seq<Totals>, k: nat): real
    requires k <= |models| == |parts|
  {
    if k == 0 then 0.0
    else UncachedTotal(setup, models, parts, k - 1) + UncachedCost(setup, models[k - 1], parts[k - 1].tokens)
  }

  lemma {:induction false} TrimmedIsPriced(job: Job, turns: seq<Turn>, model: string)
    requires OneModel(turns, model)
    ensures SingleModel(Requests(job.setup, job.proxy, job.mode, Trim(turns, job.recent)), model)
  {
    var trimmed := Trim(turns, job.recent);
    var requests := Requests(job.setup, job.proxy, job.mode, trimmed);
    forall j | 0 <= j < |requests|
      ensures requests[j].turn.model == model
    {
      assert requests[j] == RequestAt(job.setup, job.proxy, job.mode, trimmed, j);
    }
  }

  ghost predicate CostsNoMore(setup: Setup, model: string, t: Totals) {
    InputCost(t.costs) <= UncachedCost(setup, model, t.tokens)
  }

  lemma NothingCostsNoMore(setup: Setup, model: string)
    ensures CostsNoMore(setup, model, NothingScored(0))
  {
  }

  lemma {:induction false} SessionCostsNoMore(job: Job, turns: seq<Turn>, model: string)
    requires OneModel(turns, model) && ChargesInput(job.setup, model) && job.setup.writeMultiplier <= 1.9
    ensures CostsNoMore(job.setup, model, SessionTotals(job.setup, job.proxy, job.mode, Trim(turns, job.recent)))
  {
    TrimmedIsPriced(job, turns, model);
    CachingNeverCostsMore(job.setup, Requests(job.setup, job.proxy, job.mode, Trim(turns, job.recent)), model);
  }

  lemma {:induction false} PartCostsNoMore(job: Job, file: SessionFile, model: string)
    requires PricedAs(job.setup, file, model) && job.setup.writeMultiplier <= 1.9
    ensures CostsNoMore(job.setup, model, PartOf(job, file))
  {
    match file.turns
    case Some(turns) => SessionCostsNoMore(job, turns, model);
    case None => NothingCostsNoMore(job.setup, model);
  }

  lemma {:induction false} MergedCosts(setup: Setup, models: seq<string>, parts: seq<Totals>, k: nat)
    requires k <= |models| == |parts|
    requires forall f :: 0 <= f < |parts| ==> CostsNoMore(setup, models[f], parts[f])
    ensures Indices(Upto(k), |parts|)
    ensures InputCost(MergedSoFar(parts, Upto(k)).costs) <= UncachedTotal(setup, models, parts, k)
  {
    if k > 0 {
      MergedCosts(setup, models, parts, k - 1);
      assert Upto(k) == Upto(k - 1) + [k - 1];
      MergeOneMore(parts, Upto(k - 1), k - 1);
      assert CostsNoMore(setup, models[k - 1], parts[k - 1]);
    }
  }

  /** In every mode, for any write multiplier up to 1.9, a run over sessions of one model each never
      costs more input than all its forwarded tokens at full price. */
  lemma {:induction false} ReportNeverCostsMore(job: Job, files: seq<SessionFile>, models: seq<string>)
    requires |models| == |files| && job.setup.writeMultiplier <= 1.9
    requires forall f :: 0 <= f < |files| ==> PricedAs(job.setup, files[f], models[f])
    ensures var parts := Parts(job, files);
            InputCost(AllFiles(parts).costs) <= UncachedTotal(job.setup, models, parts, |parts|)
  {
    var parts := Parts(job, files);
    forall f | 0 <= f < |parts|
      ensures CostsNoMore(job.setup, models[f], parts[f])
    {
      PartCostsNoMore(job, files[f], models[f]);
    }
    MergedCosts(job.setup, models, parts, |parts|);
  }

  // ----- From transcripts to reports -----

  ghost predicate AllLoaded(files: seq<SessionFile>) {
    forall f :: 0 <= f < |files| ==> Loaded(files[f])
  }

  lemma FilesAreLoaded(transcripts: seq<Transcript>)
    ensures AllLoaded(FilesOf(transcripts))
  {
    forall f | 0 <= f < |transcripts|
      ensures Loaded(FilesOf(transcripts)[f])
    {
      FileIsLoaded(transcripts[f]);
    }
  }

  /** So, whatever the transcripts, the report of a run over them has its accounts in order. */
  lemma {:induction false} TranscriptAccounts(job: Job, transcripts: seq<Transcript>)
    ensures Accounts(AllFiles(Parts(job, FilesOf(transcripts))))
  {
    FilesAreLoaded(transcripts);
    ReportAccounts(job, FilesOf(transcripts));
  }

  /** Every file has turns of one model with a price. */
  ghost predicate AllPriced(setup: Setup, files: seq<SessionFile>, models: seq<string>) {
    |models| == |files| && forall f :: 0 <= f < |files| ==> PricedAs(setup, files[f], models[f])
  }

  /** What holds of a mode's report that sums up these files. */
  ghost predicate Keeps(report: Totals, job: Job, files: seq<SessionFile>, models: seq<string>) {
    && Accounts(report)
    && (job.mode != TokenMode ==> NeverBusts(report))
    && (AllPriced(job.setup, files, models) && job.setup.writeMultiplier <= 1.9 ==>
          InputCost(report.costs) <= UncachedTotal(job.setup, models, Parts(job, files), |files|))
  }

  lemma SumKeeps(job: Job, files: seq<SessionFile>, models: seq<string>)
    requires AllLoaded(files)
    ensures Keeps(AllFiles(Parts(job, files)), job, files, models)
  {
    ReportAccounts(job, files);
    if job.mode != TokenMode {
      ReportNeverBusts(job, files);
    }
    if AllPriced(job.setup, files, models) && job.setup.writeMultiplier <= 1.9 {
      ReportNeverCostsMore(job, files, models);
    }
  }

  lemma {:induction false} ChosenLoaded(files: seq<SessionFile>, who: seq<nat>)
    requires Indices(who, |files|) && AllLoaded(files)
    ensures AllLoaded(Chosen(files, who))
  {
    forall k | 0 <= k < |who|
      ensures Loaded(Chosen(files, who)[k])
    {
      assert Loaded(files[who[k]]);
    }
  }

  /** A mode's report: the sum over files that stand in for all files, with what that keeps. */
  ghost predicate IsKeptSum(report: Totals, job: Job, files: seq<SessionFile>, models: seq<string>)
    requires |models| == |files|
  {
    exists who :: |who| == |files| && StandIns(files, who) && report == AllFiles(Parts(job, Chosen(files, who)))
                  && Keeps(report, job, Chosen(files, who), Chosen(models, who))
  }

  lemma SumIsKept(report: Totals, job: Job, files: seq<SessionFile>, models: seq<string>)
    requires |models| == |files| && AllLoaded(files) && IsSum(report, job, files)
    ensures IsKeptSum(report, job, files, models)
  {
    var who :| |who| == |files| && StandIns(files, who) && report == AllFiles(Parts(job, Chosen(files, who)));
    ChosenLoaded(files, who);
    SumKeeps(job, Chosen(files, who), Chosen(models, who));
  }

  ghost predicate IsKeptReport(report: seq<Totals>, job: Job, files: seq<SessionFile>, models: seq<string>)
    requires |models| == |files|
  {
    && |report| == |MODES|
    && forall m {:trigger report[m]} :: 0 <= m < |MODES| ==>
         IsKeptSum(report[m], InMode(job, MODES[m]), files, models)
  }

  lemma ReportIsKept(report: seq<Totals>, job: Job, files: seq<SessionFile>, models: seq<string>)
    requires |models| == |files| && AllLoaded(files) && IsSumReport(report, job, files)
    ensures IsKeptReport(report, job, files, models)
  {
    forall m {:trigger report[m]} | 0 <= m < |MODES|
      ensures IsKeptSum(report[m], InMode(job, MODES[m]), files, models)
    {
      SumIsKept(report[m], InMode(job, MODES[m]), files, models);
    }
  }

  /** A run from the transcripts: they are loaded once and the program is started, killed and started
      again. Every report it finishes counts each file once and keeps its accounts, its prefixes
      outside token mode, and the bound on its costs. With distinct session ids it is the report of
      one undisturbed run. A transcript that cannot be loaded leaves no report at all. */
  method RunOver(job: Job, transcripts: seq<Transcript>, runs: seq<Run>, ghost models: seq<string>)
    returns (reports: seq<Option<seq<Totals>>>)
    requires |models| == |transcripts|
    ensures |reports| == |runs|
    ensures AnyRaised(transcripts) ==> forall r :: 0 <= r < |runs| ==> reports[r].None?
    ensures !AnyRaised(transcripts) ==>
      forall r :: 0 <= r < |runs| && Undisturbed(runs[r], FilesOf(transcripts)) ==> reports[r].Some?
    ensures forall r :: 0 <= r < |runs| && reports[r].Some? ==>
              && IsKeptReport(reports[r].value, job, FilesOf(transcripts), models)
              && (DistinctIds(FilesOf(transcripts)) ==> IsReport(reports[r].value, job, FilesOf(transcripts)))
  {
    var loaded := LoadFiles(transcripts);
    match loaded
    case None =>
      reports := seq(|runs|, r => None);
    case Some(files) =>
      reports := Resume(job, files, runs);
      FilesAreLoaded(transcripts);
      forall r | 0 <= r < |runs| && reports[r].Some?
        ensures IsKeptReport(reports[r].value, job, files, models)
      {
        ReportIsKept(reports[r].value, job, files, models);
      }
  }
}
