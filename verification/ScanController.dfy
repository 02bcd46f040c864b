/** The desktop scan controller: concurrent scan jobs over three fields guarded by one mutex.
    A run is any interleaving of critical sections and job steps. */
module ScanController {
  import opened Options
  import Sorting

  // ---- the fields under the mutex ----

  /** `cancel` names the scan the stored cancel function belongs to. */
  datatype Shared<H> = Shared(cancel: Option<H>, id: Option<int>, report: string)

  function Begun<H>(s: Shared<H>, h: H, id: int): Shared<H> {
    s.(cancel := Some(h), id := Some(id))
  }

  /** clearScan: only the scan that still holds the id is released. */
  function Cleared<H>(s: Shared<H>, id: int): Shared<H> {
    if s.id == Some(id) then s.(cancel := None, id := None) else s
  }

  function Stored<H>(s: Shared<H>, raw: string): Shared<H> {
    s.(report := raw)
  }

  datatype Ctx = Live | Canceled | Expired

  /** A context keeps the first reason it ended for. */
  function Cancelled(c: Ctx): Ctx {
    if c == Live then Canceled else c
  }

  class Context {
    var err: Ctx

    constructor ()
      ensures err == Live
    {
      err := Live;
    }

    method Cancel()
      modifies this
      ensures err == Cancelled(old(err))
    {
      if err == Live {
        err := Canceled;
      }
    }
  }

  class App {
    var scanCancel: Context?
    var scanID: Option<int>
    var lastReport: string

    ghost function State(): Shared<Context?>
      reads this
    {
      Shared(if scanCancel == null then None else Some(scanCancel), scanID, lastReport)
    }

    constructor ()
      ensures State() == Shared(None, None, "")
    {
      scanCancel, scanID, lastReport := null, None, "";
    }

    /** The critical section of StartScan: cancel the predecessor, then become the current scan. */
    method Begin(stamp: int) returns (ctx: Context)
      modifies this, scanCancel
      ensures fresh(ctx) && ctx.err == Live
      ensures State() == Begun(old(State()), ctx, stamp)
      ensures old(scanCancel) != null ==> old(scanCancel).err == Cancelled(old(scanCancel.err))
    {
      if scanCancel != null {
        scanCancel.Cancel();
      }
      ctx := new Context();
      scanCancel := ctx;
      scanID := Some(stamp);
    }

    /** CancelScan picks the function up under the mutex and calls it after letting go. */
    method CancelScan()
      modifies scanCancel
      ensures scanCancel != null ==> scanCancel.err == Cancelled(old(scanCancel.err))
    {
      var cancel := scanCancel;
      if cancel != null {
        cancel.Cancel();
      }
    }

    method StoreReport(raw: string)
      modifies this
      ensures State() == Stored(old(State()), raw)
    {
      lastReport := raw;
    }

    method ClearScan(id: int)
      modifies this
      ensures State() == Cleared(old(State()), id)
    {
      if scanID == Some(id) {
        scanCancel := null;
        scanID := None;
      }
    }

    method LatestSnapshot() returns (report: string)
      ensures report == State().report
    {
      report := lastReport;
    }
  }

  // ---- jobs ----

  datatype Output = Ok(raw: string) | Failed
  datatype Outcome = ScanCompleted | ScanFailed | ScanCancelled
  datatype Event = Started | TopologyUpdated(raw: string) | Terminal(outcome: Outcome)

  /** Where the goroutine of a job stands. */
  datatype Phase =
    | Created                        // StartScan has left its critical section
    | Announced                      // scan:started is out, the goroutine not yet launched
    | Running                        // the child process
    | Returned(output: Output)       // the child is gone, ctx.Err() not yet read
    | Ending(outcome: Outcome)       // about to report a cancellation or a failure
    | Storing(raw: string)           // about to store the report
    | Delivering(raw: string)        // about to emit the topology
    | Completing(raw: string)        // about to emit completion
    | Clearing(log: seq<Event>)      // about to call clearScan; what it reported is settled
    | Leaving(log: seq<Event>)       // about to run the deferred cancel
    | Done(log: seq<Event>)

  datatype Job = Job(id: int, ctx: Ctx, phase: Phase)

  /** `grabbed`: cancel functions CancelScan has picked up and not yet called.
      `closing`: the context every scan derives from has been cancelled. */
  datatype State = State(shared: Shared<nat>, jobs: seq<Job>, grabbed: seq<nat>, events: seq<(nat, Event)>,
                         closing: bool)

  datatype Action =
    | Start(stamp: int)
    | Grab
    | Fire(call: nat)
    | Expire(job: nat)
    | Shutdown
    | Return(job: nat, output: Output)
    | Advance(job: nat)

  const INITIAL := State(Shared(None, None, ""), [], [], [], false)

  function CancelJob(jobs: seq<Job>, j: nat): seq<Job> {
    if j < |jobs| then jobs[j := jobs[j].(ctx := Cancelled(jobs[j].ctx))] else jobs
  }

  function WithPhase(s: State, j: nat, p: Phase): State
    requires j < |s.jobs|
  {
    s.(jobs := s.jobs[j := s.jobs[j].(phase := p)])
  }

  function Emit(s: State, j: nat, e: Event): State {
    s.(events := s.events + [(j, e)])
  }

  /** The next step of a job's own goroutine. Running ends by the child returning, Done has no next step. */
  function Advanced(s: State, j: nat): Option<State>
    requires j < |s.jobs|
  {
    var job := s.jobs[j];
    match job.phase
    case Created => Some(WithPhase(Emit(s, j, Started), j, Announced))
    case Announced => Some(WithPhase(s, j, Running))
    case Running => None
    case Returned(output) =>
      Some(WithPhase(s, j, if job.ctx == Canceled then Ending(ScanCancelled)
                           else if output == Failed then Ending(ScanFailed)
                           else Storing(output.raw)))
    case Ending(outcome) => Some(WithPhase(Emit(s, j, Terminal(outcome)), j, Clearing([Started, Terminal(outcome)])))
    case Storing(raw) => Some(WithPhase(s.(shared := Stored(s.shared, raw)), j, Delivering(raw)))
    case Delivering(raw) => Some(WithPhase(Emit(s, j, TopologyUpdated(raw)), j, Completing(raw)))
    case Completing(raw) =>
      Some(WithPhase(Emit(s, j, Terminal(ScanCompleted)), j,
                     Clearing([Started, TopologyUpdated(raw), Terminal(ScanCompleted)])))
    case Clearing(log) => Some(WithPhase(s.(shared := Cleared(s.shared, job.id)), j, Leaving(log)))
    case Leaving(log) => Some(s.(jobs := s.jobs[j := Job(job.id, Cancelled(job.ctx), Done(log))]))
    case Done(_) => None
  }

  function CancelEach(jobs: seq<Job>): seq<Job> {
    seq(|jobs|, j requires 0 <= j < |jobs| => jobs[j].(ctx := Cancelled(jobs[j].ctx)))
  }

  function Step(s: State, a: Action): Option<State> {
    match a
    case Start(stamp) =>
      var jobs := if s.shared.cancel.Some? then CancelJob(s.jobs, s.shared.cancel.value) else s.jobs;
      Some(s.(shared := Begun(s.shared, |s.jobs|, stamp),
              jobs := jobs + [Job(stamp, if s.closing then Canceled else Live, Created)]))
    case Grab => Some(if s.shared.cancel.Some? then s.(grabbed := s.grabbed + [s.shared.cancel.value]) else s)
    case Fire(call) =>
      if call < |s.grabbed| then
        Some(s.(jobs := CancelJob(s.jobs, s.grabbed[call]), grabbed := s.grabbed[..call] + s.grabbed[call + 1..]))
      else None
    case Expire(j) =>
      if j < |s.jobs| && s.jobs[j].ctx == Live then Some(s.(jobs := s.jobs[j := s.jobs[j].(ctx := Expired)])) else None
    case Shutdown => Some(s.(jobs := CancelEach(s.jobs), closing := true))
    case Return(j, output) =>
      if j < |s.jobs| && s.jobs[j].phase == Running then Some(WithPhase(s, j, Returned(output))) else None
    case Advance(j) => if j < |s.jobs| then Advanced(s, j) else None
  }

  /** The state after an interleaving, unless some step of it was not enabled. */
  function Run(actions: seq<Action>): Option<State> {
    if actions == [] then Some(INITIAL)
    else
      var before := Run(actions[..|actions| - 1]);
      if before.Some? then Step(before.value, actions[|actions| - 1]) else None
  }

  function Stamps(actions: seq<Action>): seq<int> {
    if actions == [] then []
    else
      var last := actions[|actions| - 1];
      Stamps(actions[..|actions| - 1]) + (if last.Start? then [last.stamp] else [])
  }

  function IDs(jobs: seq<Job>): seq<int> {
    seq(|jobs|, j requires 0 <= j < |jobs| => jobs[j].id)
  }

  // ---- what every run keeps ----

  function EventsOf(events: seq<(nat, Event)>, j: nat): seq<Event> {
    if events == [] then []
    else
      var last := events[|events| - 1];
      EventsOf(events[..|events| - 1], j) + (if last.0 == j then [last.1] else [])
  }

  /** What a job has told the frontend, by where it stands. */
  function Log(p: Phase): seq<Event> {
    match p
    case Created => []
    case Completing(raw) => [Started, TopologyUpdated(raw)]
    case Clearing(log) => log
    case Leaving(log) => log
    case Done(log) => log
    case _ => [Started]
  }

  /** The logs a finished job can leave. */
  predicate FinalLog(log: seq<Event>) {
    || log == [Started, Terminal(ScanCancelled)] || log == [Started, Terminal(ScanFailed)]
    || (|log| == 3 && log[0] == Started && log[1].TopologyUpdated? && log[2] == Terminal(ScanCompleted))
  }

  predicate PhaseSound(p: Phase) {
    match p
    case Ending(outcome) => outcome != ScanCompleted
    case Clearing(log) => FinalLog(log)
    case Leaving(log) => FinalLog(log)
    case Done(log) => FinalLog(log)
    case _ => true
  }

  predicate Holding(p: Phase) {
    !p.Leaving? && !p.Done?
  }

  ghost predicate Paired(s: State) {
    && (s.shared.cancel.Some? <==> s.shared.id.Some?)
    && (s.shared.cancel.Some? ==>
          s.shared.cancel.value < |s.jobs| && s.jobs[s.shared.cancel.value].id == s.shared.id.value)
    && forall i | 0 <= i < |s.grabbed| :: s.grabbed[i] < |s.jobs|
  }

  ghost predicate Logged(s: State) {
    && (forall j | 0 <= j < |s.jobs| :: PhaseSound(s.jobs[j].phase) && EventsOf(s.events, j) == Log(s.jobs[j].phase))
    && (forall e | e in s.events :: e.0 < |s.jobs|)
  }

  /** A job that may still be at work with a live context is the current scan. */
  ghost predicate LiveIsCurrent(s: State) {
    forall j | 0 <= j < |s.jobs| && s.jobs[j].ctx == Live && Holding(s.jobs[j].phase) :: s.shared.cancel == Some(j)
  }

  lemma EventsOfEmit(events: seq<(nat, Event)>, k: nat, e: Event, j: nat)
    ensures EventsOf(events + [(k, e)], j) == EventsOf(events, j) + (if k == j then [e] else [])
  {
    assert (events + [(k, e)])[..|events|] == events;
  }

  lemma {:induction false} NoEventsOf(events: seq<(nat, Event)>, j: nat)
    requires forall e | e in events :: e.0 != j
    ensures EventsOf(events, j) == []
  {
    if events != [] {
      assert events[|events| - 1] in events;
      NoEventsOf(events[..|events| - 1], j);
    }
  }

  lemma PairedStep(s: State, a: Action, t: State)
    requires Paired(s) && Step(s, a) == Some(t)
    ensures Paired(t)
  {
  }

  lemma LoggedStart(s: State, stamp: int, t: State)
    requires Logged(s) && Step(s, Start(stamp)) == Some(t)
    ensures Logged(t)
  {
    forall e | e in s.events ensures e.0 != |s.jobs| {}
    NoEventsOf(s.events, |s.jobs|);
    forall i | 0 <= i < |t.jobs| ensures PhaseSound(t.jobs[i].phase) && EventsOf(t.events, i) == Log(t.jobs[i].phase) {
      assert i < |s.jobs| ==> t.jobs[i].phase == s.jobs[i].phase;
    }
  }

  /** The event log of a step that told the frontend `told`, at most one event. */
  function TellingOf(events: seq<(nat, Event)>, j: nat, told: seq<Event>): seq<(nat, Event)> {
    if told == [] then events else events + [(j, told[0])]
  }

  lemma ToldReachesLog(events: seq<(nat, Event)>, j: nat, told: seq<Event>, i: nat)
    requires |told| <= 1
    ensures EventsOf(TellingOf(events, j, told), i) == EventsOf(events, i) + (if i == j then told else [])
  {
    if told != [] {
      EventsOfEmit(events, j, told[0], i);
      assert told == [told[0]];
    }
  }

  /** A job moved on to `p` and told the frontend `told`. */
  ghost predicate Moved(s: State, j: nat, p: Phase, told: seq<Event>, t: State) {
    && j < |s.jobs| == |t.jobs| && t.jobs[j].phase == p
    && (forall i | 0 <= i < |s.jobs| && i != j :: t.jobs[i].phase == s.jobs[i].phase)
    && |told| <= 1 && t.events == TellingOf(s.events, j, told)
  }

  lemma LoggedMove(s: State, j: nat, p: Phase, told: seq<Event>, t: State)
    requires Logged(s) && Moved(s, j, p, told, t) && PhaseSound(p) && Log(p) == Log(s.jobs[j].phase) + told
    ensures Logged(t)
  {
    forall i | 0 <= i < |t.jobs| ensures PhaseSound(t.jobs[i].phase) && EventsOf(t.events, i) == Log(t.jobs[i].phase) {
      assert PhaseSound(s.jobs[i].phase) && EventsOf(s.events, i) == Log(s.jobs[i].phase);
      ToldReachesLog(s.events, j, told, i);
    }
  }

  /** What a step of the goroutine tells the frontend. */
  function Told(p: Phase): seq<Event> {
    match p
    case Created => [Started]
    case Ending(outcome) => [Terminal(outcome)]
    case Delivering(raw) => [TopologyUpdated(raw)]
    case Completing(raw) => [Terminal(ScanCompleted)]
    case _ => []
  }

  lemma AdvanceMoves(s: State, j: nat, t: State)
    requires Step(s, Advance(j)) == Some(t)
    ensures Moved(s, j, t.jobs[j].phase, Told(s.jobs[j].phase), t)
    ensures Log(t.jobs[j].phase) == Log(s.jobs[j].phase) + Told(s.jobs[j].phase)
    ensures PhaseSound(s.jobs[j].phase) ==> PhaseSound(t.jobs[j].phase)
  {
    match s.jobs[j].phase {
      case Created =>
      case Announced =>
      case Returned(_) =>
      case Ending(_) =>
      case Storing(_) =>
      case Delivering(_) =>
      case Completing(_) =>
      case Clearing(_) =>
      case Leaving(_) =>
      case _ =>
    }
  }

  lemma LoggedAdvance(s: State, j: nat, t: State)
    requires Logged(s) && Step(s, Advance(j)) == Some(t)
    ensures Logged(t)
  {
    AdvanceMoves(s, j, t);
    LoggedMove(s, j, t.jobs[j].phase, Told(s.jobs[j].phase), t);
  }

  lemma LoggedStep(s: State, a: Action, t: State)
    requires Logged(s) && Step(s, a) == Some(t)
    ensures Logged(t)
  {
    match a {
      case Start(stamp) => LoggedStart(s, stamp, t);
      case Advance(j) => LoggedAdvance(s, j, t);
      case _ =>
    }
  }

  lemma IDsApart(jobs: seq<Job>, j: nat, k: nat)
    requires Sorting.Distinct(IDs(jobs)) && j < |jobs| && k < |jobs| && j != k
    ensures jobs[j].id != jobs[k].id
  {
    assert IDs(jobs)[j] != IDs(jobs)[k];
  }

  lemma LiveStep(s: State, a: Action, t: State)
    requires Paired(s) && LiveIsCurrent(s) && Sorting.Distinct(IDs(s.jobs)) && Step(s, a) == Some(t)
    ensures LiveIsCurrent(t)
  {
    match a {
      case Advance(j) =>
        if s.jobs[j].phase.Clearing? {
          ClearKeepsExactly(s, j, t);
          forall k | 0 <= k < |s.jobs| && k != j ensures s.jobs[k].id != s.jobs[j].id {
            IDsApart(s.jobs, k, j);
          }
        } else {
          LiveAdvance(s, j, t);
        }
      case _ => LiveOther(s, a, t);
    }
  }

  lemma LiveAdvance(s: State, j: nat, t: State)
    requires LiveIsCurrent(s) && j < |s.jobs| && !s.jobs[j].phase.Clearing? && Step(s, Advance(j)) == Some(t)
    ensures LiveIsCurrent(t)
  {
    forall i | 0 <= i < |t.jobs| && t.jobs[i].ctx == Live && Holding(t.jobs[i].phase)
      ensures t.shared.cancel == Some(i)
    {
      assert s.jobs[i].ctx == Live && Holding(s.jobs[i].phase);
    }
  }

  lemma LiveOther(s: State, a: Action, t: State)
    requires Paired(s) && LiveIsCurrent(s) && !a.Advance? && Step(s, a) == Some(t)
    ensures LiveIsCurrent(t)
  {
  }

  /** clearScan leaves a live job without its cancel function exactly when that job carries the clearing job's id. */
  lemma ClearKeepsExactly(s: State, j: nat, t: State)
    requires Paired(s) && LiveIsCurrent(s) && j < |s.jobs| && s.jobs[j].phase.Clearing?
             && Step(s, Advance(j)) == Some(t)
    ensures LiveIsCurrent(t) <==>
            !(exists k :: k != j && s.shared.cancel == Some(k) && s.jobs[k].ctx == Live && Holding(s.jobs[k].phase)
                          && s.jobs[k].id == s.jobs[j].id)
  {
    if exists k :: k != j && s.shared.cancel == Some(k) && s.jobs[k].ctx == Live && Holding(s.jobs[k].phase)
                   && s.jobs[k].id == s.jobs[j].id {
      var k :| k != j && s.shared.cancel == Some(k) && s.jobs[k].ctx == Live && Holding(s.jobs[k].phase)
               && s.jobs[k].id == s.jobs[j].id;
      assert t.jobs[k] == s.jobs[k] && t.shared.cancel == None;
    } else {
      forall k | 0 <= k < |t.jobs| && t.jobs[k].ctx == Live && Holding(t.jobs[k].phase)
        ensures t.shared.cancel == Some(k)
      {
        assert s.jobs[k] == t.jobs[k];
      }
    }
  }

  lemma StepIDs(s: State, a: Action, t: State)
    requires Step(s, a) == Some(t)
    ensures IDs(t.jobs) == IDs(s.jobs) + (if a.Start? then [a.stamp] else [])
  {
  }

  /** In every interleaving, whatever the ids: the cancel function and the id are set together and for the
      same job, and every job has told the frontend exactly what its position says. */
  lemma {:induction false} EveryRunKeeps(actions: seq<Action>)
    requires Run(actions).Some?
    ensures Paired(Run(actions).value) && Logged(Run(actions).value)
    ensures IDs(Run(actions).value.jobs) == Stamps(actions)
  {
    if actions != [] {
      var init, last := actions[..|actions| - 1], actions[|actions| - 1];
      EveryRunKeeps(init);
      PairedStep(Run(init).value, last, Run(actions).value);
      LoggedStep(Run(init).value, last, Run(actions).value);
      StepIDs(Run(init).value, last, Run(actions).value);
    }
  }

  /** With fresh ids, a job at work with a live context is the current scan. */
  lemma {:induction false} FreshRunsKeepLiveCurrent(actions: seq<Action>)
    requires Run(actions).Some? && Sorting.Distinct(Stamps(actions))
    ensures LiveIsCurrent(Run(actions).value)
  {
    if actions != [] {
      var init, last := actions[..|actions| - 1], actions[|actions| - 1];
      EveryRunKeeps(init);
      assert Stamps(init) == Stamps(actions)[..|Stamps(init)|];
      DistinctPrefix(Stamps(actions), |Stamps(init)|);
      FreshRunsKeepLiveCurrent(init);
      LiveStep(Run(init).value, last, Run(actions).value);
    }
  }

  lemma DistinctPrefix(ids: seq<int>, n: nat)
    requires n <= |ids| && Sorting.Distinct(ids)
    ensures Sorting.Distinct(ids[..n])
  {
  }

  /** At most one child process runs under a live context. */
  lemma OneLiveChild(actions: seq<Action>, i: nat, j: nat)
    requires Run(actions).Some? && Sorting.Distinct(Stamps(actions))
    requires i < |Run(actions).value.jobs| && j < |Run(actions).value.jobs|
    requires var jobs := Run(actions).value.jobs;
             jobs[i].ctx == Live && jobs[i].phase == Running && jobs[j].ctx == Live && jobs[j].phase == Running
    ensures i == j
  {
    FreshRunsKeepLiveCurrent(actions);
  }

  /** A superseded job's clearScan leaves the newer scan alone. */
  lemma ClearSparesNewer(actions: seq<Action>, j: nat)
    requires Run(actions).Some? && Sorting.Distinct(Stamps(actions))
    requires j < |Run(actions).value.jobs| && Run(actions).value.jobs[j].phase.Clearing?
    requires Run(actions).value.shared.cancel != Some(j)
    ensures Step(Run(actions).value, Advance(j)).value.shared == Run(actions).value.shared
  {
    EveryRunKeeps(actions);
    var s := Run(actions).value;
    if s.shared.cancel.Some? {
      IDsApart(s.jobs, j, s.shared.cancel.value);
    }
  }

  function Terminals(log: seq<Event>): nat {
    if log == [] then 0 else Terminals(log[..|log| - 1]) + (if log[|log| - 1].Terminal? then 1 else 0)
  }

  lemma FinalLogHasOne(log: seq<Event>)
    requires FinalLog(log)
    ensures Terminals(log) == 1
  {
    var n := |log|;
    assert log[..n - 1][..n - 2] == log[..n - 2];
    assert n == 3 ==> log[..1][..0] == [];
    assert Terminals(log[..n - 1]) == Terminals(log[..n - 2]);
  }

  /** Every finished job has reported exactly one terminal outcome. */
  lemma OneOutcome(actions: seq<Action>, j: nat)
    requires Run(actions).Some? && j < |Run(actions).value.jobs| && Run(actions).value.jobs[j].phase.Done?
    ensures Terminals(EventsOf(Run(actions).value.events, j)) == 1
    ensures FinalLog(EventsOf(Run(actions).value.events, j))
  {
    EveryRunKeeps(actions);
    FinalLogHasOne(EventsOf(Run(actions).value.events, j));
  }

  // ---- what ends a context ----

  /** The step ends a live context of job `i`: a later scan supersedes it, a cancel function picked up for it is called,
      the application shuts down, or its own deferred cancel runs. */
  predicate Stops(s: State, a: Action, i: nat)
    requires i < |s.jobs|
  {
    || (a.Start? && s.shared.cancel == Some(i))
    || (a.Fire? && a.call < |s.grabbed| && s.grabbed[a.call] == i)
    || a.Shutdown?
    || (a == Advance(i) && s.jobs[i].phase.Leaving?)
  }

  /** A context ends by such a step or by expiring, for no other reason, and never revives or changes its reason. */
  lemma ContextEndsExactly(s: State, a: Action, t: State, i: nat)
    requires Step(s, a) == Some(t) && i < |s.jobs|
    ensures i < |t.jobs|
    ensures t.jobs[i].ctx == if s.jobs[i].ctx != Live then s.jobs[i].ctx
                             else if Stops(s, a, i) then Canceled
                             else if a == Expire(i) then Expired
                             else Live
  {
    if a.Advance? {
      AdvanceContext(s, a.job, t, i);
    }
  }

  lemma AdvanceContext(s: State, j: nat, t: State, i: nat)
    requires j < |s.jobs| && Advanced(s, j) == Some(t) && i < |s.jobs|
    ensures i < |t.jobs|
    ensures t.jobs[i].ctx == if i == j && s.jobs[i].phase.Leaving? then Cancelled(s.jobs[i].ctx) else s.jobs[i].ctx
  {
  }

  /** Shutting down is final. */
  lemma {:induction false} ClosedExactly(actions: seq<Action>)
    requires Run(actions).Some?
    ensures Run(actions).value.closing <==> Shutdown in actions
  {
    if actions != [] {
      var init, last := actions[..|actions| - 1], actions[|actions| - 1];
      ClosedExactly(init);
      assert actions == init + [last];
      ClosingStep(Run(init).value, last, Run(actions).value);
    }
  }

  lemma ClosingStep(s: State, a: Action, t: State)
    requires Step(s, a) == Some(t)
    ensures t.closing <==> s.closing || a.Shutdown?
  {
  }

  /** After a shutdown no job is live again, not even one started later. */
  lemma {:induction false} ShutdownStopsAll(actions: seq<Action>)
    requires Run(actions).Some? && Shutdown in actions
    ensures forall i | 0 <= i < |Run(actions).value.jobs| :: Run(actions).value.jobs[i].ctx != Live
  {
    var init, last := actions[..|actions| - 1], actions[|actions| - 1];
    assert actions == init + [last];
    var s, t := Run(init).value, Run(actions).value;
    if Shutdown in init {
      ShutdownStopsAll(init);
      ClosedExactly(init);
    }
    forall i | 0 <= i < |t.jobs| ensures t.jobs[i].ctx != Live {
      if i < |s.jobs| {
        ContextEndsExactly(s, last, t, i);
      } else {
        JobsAppear(s, last, t);
      }
    }
  }

  /** Jobs appear one at a time by starting, and live unless the application is closing. */
  lemma JobsAppear(s: State, a: Action, t: State)
    requires Step(s, a) == Some(t)
    ensures |t.jobs| == |s.jobs| + (if a.Start? then 1 else 0)
    ensures a.Start? ==> t.jobs[|s.jobs|] == Job(a.stamp, if s.closing then Canceled else Live, Created)
  {
  }

  /** CancelScan reaches the current scan: with its cancel function picked up and called, that scan is no longer live,
      and every other scan is as live as before. */
  lemma CancelReachesCurrent(actions: seq<Action>, j: nat, i: nat)
    requires Run(actions).Some? && Run(actions).value.shared.cancel == Some(j)
    requires i < |Run(actions).value.jobs|
    ensures var s := Run(actions).value;
            var after := Run(actions + [Grab] + [Fire(|s.grabbed|)]);
            && after.Some? && i < |after.value.jobs|
            && after.value.jobs[i].ctx == if i == j then Cancelled(s.jobs[i].ctx) else s.jobs[i].ctx
  {
    var s := Run(actions).value;
    RunOn(actions, Grab);
    var t := Run(actions + [Grab]).value;
    assert t == s.(grabbed := s.grabbed + [j]);
    RunOn(actions + [Grab], Fire(|s.grabbed|));
    ContextEndsExactly(t, Fire(|s.grabbed|), Step(t, Fire(|s.grabbed|)).value, i);
  }

  // ---- why a job ended ----

  /** The child of job `j` is gone at action `r`, with this output, and no other action returns it. */
  ghost predicate ReturnedAt(actions: seq<Action>, j: nat, r: nat, output: Output) {
    && r < |actions| && actions[r] == Return(j, output)
    && forall i | 0 <= i < |actions| && i != r :: !(actions[i].Return? && actions[i].job == j)
  }

  /** The job has not moved since its child returned. */
  ghost predicate Waiting(actions: seq<Action>, j: nat, r: nat, output: Output) {
    ReturnedAt(actions, j, r, output) && forall i | r < i < |actions| :: actions[i] != Advance(j)
  }

  /** The first step the job takes after `r` is `d`, and `ctx` is its context then. */
  ghost predicate LookedAt(actions: seq<Action>, j: nat, r: nat, d: nat, ctx: Ctx) {
    && r < d < |actions| && actions[d] == Advance(j) && (forall i | r < i < d :: actions[i] != Advance(j))
    && Run(actions[..d]).Some? && j < |Run(actions[..d]).value.jobs| && Run(actions[..d]).value.jobs[j].ctx == ctx
  }

  /** Some step of the job has made `raw` the latest report. */
  ghost predicate StoredBy(actions: seq<Action>, j: nat, raw: string) {
    exists e | 0 <= e < |actions| ::
      actions[e] == Advance(j) && Run(actions[..e + 1]).Some? && Run(actions[..e + 1]).value.shared.report == raw
  }

  /** What the frontend hears in the end: a cancelled context beats the output, a failed child is a failure, and a
      report is delivered before completion. */
  function Verdict(ctx: Ctx, output: Output): seq<Event> {
    if ctx == Canceled then [Started, Terminal(ScanCancelled)]
    else
      match output
      case Failed => [Started, Terminal(ScanFailed)]
      case Ok(raw) => [Started, TopologyUpdated(raw), Terminal(ScanCompleted)]
  }

  /** Where a job can stand once it has looked at `ctx` and `output`. */
  predicate OnCourse(p: Phase, ctx: Ctx, output: Output) {
    match p
    case Ending(outcome) => [Started, Terminal(outcome)] == Verdict(ctx, output)
    case Storing(raw) => ctx != Canceled && output == Ok(raw)
    case Delivering(raw) => ctx != Canceled && output == Ok(raw)
    case Completing(raw) => ctx != Canceled && output == Ok(raw)
    case Clearing(log) => log == Verdict(ctx, output)
    case Leaving(log) => log == Verdict(ctx, output)
    case Done(log) => log == Verdict(ctx, output)
    case _ => false
  }

  predicate PastStoring(p: Phase) {
    p.Delivering? || p.Completing? || p.Clearing? || p.Leaving? || p.Done?
  }

  ghost predicate Looked(actions: seq<Action>, j: nat, p: Phase, r: nat, d: nat, ctx: Ctx, output: Output) {
    && ReturnedAt(actions, j, r, output) && LookedAt(actions, j, r, d, ctx) && OnCourse(p, ctx, output)
    && (PastStoring(p) && ctx != Canceled && output.Ok? ==> StoredBy(actions, j, output.raw))
  }

  ghost predicate NeverReturned(actions: seq<Action>, j: nat) {
    forall i | 0 <= i < |actions| :: !(actions[i].Return? && actions[i].job == j)
  }

  /** How job `j` came to stand at `p`. */
  ghost predicate Story(actions: seq<Action>, j: nat, p: Phase) {
    match p
    case Created => NeverReturned(actions, j)
    case Announced => NeverReturned(actions, j)
    case Running => NeverReturned(actions, j)
    case Returned(output) =>
      exists r: nat :: Waiting(actions, j, r, output)
    case _ => exists r: nat, d: nat, ctx, output :: Looked(actions, j, p, r, d, ctx, output)
  }

  lemma ReturnedOn(actions: seq<Action>, a: Action, j: nat, r: nat, output: Output)
    requires ReturnedAt(actions, j, r, output) && !(a.Return? && a.job == j)
    ensures ReturnedAt(actions + [a], j, r, output)
  {
  }

  lemma LookedAtOn(actions: seq<Action>, a: Action, j: nat, r: nat, d: nat, ctx: Ctx)
    requires LookedAt(actions, j, r, d, ctx)
    ensures LookedAt(actions + [a], j, r, d, ctx)
  {
    assert (actions + [a])[..d] == actions[..d];
  }

  lemma StoredOn(actions: seq<Action>, a: Action, j: nat, raw: string)
    requires StoredBy(actions, j, raw)
    ensures StoredBy(actions + [a], j, raw)
  {
    var e :| 0 <= e < |actions| && actions[e] == Advance(j) && Run(actions[..e + 1]).Some?
             && Run(actions[..e + 1]).value.shared.report == raw;
    assert (actions + [a])[..e + 1] == actions[..e + 1];
  }

  lemma LookedOn(actions: seq<Action>, a: Action, j: nat, p: Phase, q: Phase, r: nat, d: nat, ctx: Ctx, output: Output)
    requires Looked(actions, j, p, r, d, ctx, output) && !(a.Return? && a.job == j) && OnCourse(q, ctx, output)
    requires PastStoring(q) && ctx != Canceled && output.Ok? ==>
               PastStoring(p) || StoredBy(actions + [a], j, output.raw)
    ensures Looked(actions + [a], j, q, r, d, ctx, output)
  {
    ReturnedOn(actions, a, j, r, output);
    LookedAtOn(actions, a, j, r, d, ctx);
    if PastStoring(p) && ctx != Canceled && output.Ok? {
      StoredOn(actions, a, j, output.raw);
    }
  }

  /** Steps of others leave a job's story as it is. */
  lemma StoryOn(actions: seq<Action>, a: Action, j: nat, p: Phase)
    requires Story(actions, j, p) && !(a.Return? && a.job == j) && a != Advance(j)
    ensures Story(actions + [a], j, p)
  {
    var longer := actions + [a];
    match p {
      case Created =>
      case Announced =>
      case Running =>
      case Returned(output) =>
        var r: nat :| Waiting(actions, j, r, output);
        ReturnedOn(actions, a, j, r, output);
        assert Waiting(longer, j, r, output);
      case _ =>
        var r: nat, d: nat, ctx, output :| Looked(actions, j, p, r, d, ctx, output);
        LookedOn(actions, a, j, p, p, r, d, ctx, output);
    }
  }

  lemma StoryReturns(actions: seq<Action>, j: nat, output: Output)
    requires NeverReturned(actions, j)
    ensures Story(actions + [Return(j, output)], j, Returned(output))
  {
    assert Waiting(actions + [Return(j, output)], j, |actions|, output);
  }

  /** The job looks at its context and its output, in that order. */
  lemma StoryLooks(actions: seq<Action>, s: State, j: nat, t: State)
    requires Run(actions) == Some(s) && j < |s.jobs| && s.jobs[j].phase.Returned?
    requires Story(actions, j, s.jobs[j].phase) && Step(s, Advance(j)) == Some(t)
    ensures Story(actions + [Advance(j)], j, t.jobs[j].phase)
  {
    var output, ctx, d := s.jobs[j].phase.output, s.jobs[j].ctx, |actions|;
    var longer := actions + [Advance(j)];
    var r: nat :| Waiting(actions, j, r, output);
    ReturnedOn(actions, Advance(j), j, r, output);
    assert longer[..d] == actions;
    assert forall i | r < i < d :: longer[i] == actions[i];
    assert LookedAt(longer, j, r, d, ctx);
    assert Looked(longer, j, t.jobs[j].phase, r, d, ctx, output);
  }

  lemma StoryStores(actions: seq<Action>, s: State, j: nat, t: State)
    requires Run(actions) == Some(s) && j < |s.jobs| && s.jobs[j].phase.Storing?
    requires Story(actions, j, s.jobs[j].phase) && Step(s, Advance(j)) == Some(t)
    ensures Story(actions + [Advance(j)], j, t.jobs[j].phase)
  {
    var p, q, longer := s.jobs[j].phase, t.jobs[j].phase, actions + [Advance(j)];
    var r: nat, d: nat, ctx, output :| Looked(actions, j, p, r, d, ctx, output);
    StoredNow(actions, s, j, t, output.raw);
    LookedOn(actions, Advance(j), j, p, q, r, d, ctx, output);
  }

  lemma StoredNow(actions: seq<Action>, s: State, j: nat, t: State, raw: string)
    requires Run(actions) == Some(s) && Step(s, Advance(j)) == Some(t) && t.shared.report == raw
    ensures StoredBy(actions + [Advance(j)], j, raw)
  {
    var longer := actions + [Advance(j)];
    RunOn(actions, Advance(j));
    assert longer[..|actions| + 1] == longer && longer[|actions|] == Advance(j);
  }

  lemma RunOn(actions: seq<Action>, a: Action)
    requires Run(actions).Some?
    ensures Run(actions + [a]) == Step(Run(actions).value, a)
  {
    assert (actions + [a])[..|actions|] == actions;
  }

  lemma StoryGoesOn(actions: seq<Action>, s: State, j: nat, t: State)
    requires j < |s.jobs| && Story(actions, j, s.jobs[j].phase) && Step(s, Advance(j)) == Some(t)
    requires !s.jobs[j].phase.Returned? && !s.jobs[j].phase.Storing?
    ensures Story(actions + [Advance(j)], j, t.jobs[j].phase)
  {
    var p, q := s.jobs[j].phase, t.jobs[j].phase;
    if p.Created? || p.Announced? {
      assert NeverReturned(actions + [Advance(j)], j);
    } else {
      var r: nat, d: nat, ctx, output :| Looked(actions, j, p, r, d, ctx, output);
      Onward(s, j, t, ctx, output);
      LookedOn(actions, Advance(j), j, p, q, r, d, ctx, output);
    }
  }

  lemma Onward(s: State, j: nat, t: State, ctx: Ctx, output: Output)
    requires j < |s.jobs| && Step(s, Advance(j)) == Some(t) && OnCourse(s.jobs[j].phase, ctx, output)
    requires !s.jobs[j].phase.Storing?
    ensures OnCourse(t.jobs[j].phase, ctx, output)
    ensures PastStoring(t.jobs[j].phase) && ctx != Canceled && output.Ok? ==> PastStoring(s.jobs[j].phase)
  {
    match s.jobs[j].phase {
      case Ending(outcome) =>
      case Delivering(_) =>
      case Completing(_) =>
      case Clearing(_) =>
      case Leaving(_) =>
      case _ =>
    }
  }

  lemma OthersStand(s: State, a: Action, t: State, i: nat)
    requires Step(s, a) == Some(t) && i < |t.jobs| && a != Advance(i) && !(a.Return? && a.job == i)
    ensures if i < |s.jobs| then t.jobs[i].phase == s.jobs[i].phase else t.jobs[i].phase == Created && a.Start?
  {
  }

  lemma ReturnRuns(s: State, j: nat, output: Output, t: State)
    requires Step(s, Return(j, output)) == Some(t)
    ensures j < |s.jobs| && s.jobs[j].phase == Running && t.jobs[j].phase == Returned(output)
  {
  }

  /** No action returns a job before it is started. */
  lemma {:induction false} NotYetReturned(actions: seq<Action>, j: nat)
    requires Run(actions).Some? && j >= |Run(actions).value.jobs|
    ensures NeverReturned(actions, j)
  {
    if actions != [] {
      var init, last := actions[..|actions| - 1], actions[|actions| - 1];
      assert actions == init + [last];
      StepIDs(Run(init).value, last, Run(actions).value);
      assert |IDs(Run(init).value.jobs)| <= |IDs(Run(actions).value.jobs)|;
      NotYetReturned(init, j);
      if last.Return? {
        ReturnRuns(Run(init).value, last.job, last.output, Run(actions).value);
      }
    }
  }

  lemma StoryStep(init: seq<Action>, s: State, a: Action, t: State, j: nat)
    requires Run(init) == Some(s) && Step(s, a) == Some(t) && j < |t.jobs|
    requires j < |s.jobs| ==> Story(init, j, s.jobs[j].phase)
    ensures Story(init + [a], j, t.jobs[j].phase)
  {
    if a == Advance(j) {
      if s.jobs[j].phase.Returned? {
        StoryLooks(init, s, j, t);
      } else if s.jobs[j].phase.Storing? {
        StoryStores(init, s, j, t);
      } else {
        StoryGoesOn(init, s, j, t);
      }
    } else if a.Return? && a.job == j {
      ReturnRuns(s, j, a.output, t);
      StoryReturns(init, j, a.output);
    } else {
      OthersStand(s, a, t, j);
      if j < |s.jobs| {
        StoryOn(init, a, j, s.jobs[j].phase);
      } else {
        NotYetReturned(init, j);
        assert NeverReturned(init + [a], j);
      }
    }
  }

  lemma {:induction false} EveryJobHasItsStory(actions: seq<Action>, j: nat)
    requires Run(actions).Some? && j < |Run(actions).value.jobs|
    ensures Story(actions, j, Run(actions).value.jobs[j].phase)
  {
    if actions != [] {
      var init, last := actions[..|actions| - 1], actions[|actions| - 1];
      assert actions == init + [last];
      var s := Run(init).value;
      if j < |s.jobs| {
        EveryJobHasItsStory(init, j);
      }
      StoryStep(init, s, last, Run(actions).value, j);
    }
  }

  /** A finished job's child returned once, at `r`, and the job next took step `d`. It reported a cancellation
      exactly when its context was cancelled by then, a failure exactly when not and the child had failed; otherwise
      it delivered the child's report, having stored it. */
  lemma OutcomeExactly(actions: seq<Action>, j: nat) returns (r: nat, d: nat, ctx: Ctx, output: Output)
    requires Run(actions).Some? && j < |Run(actions).value.jobs| && Run(actions).value.jobs[j].phase.Done?
    ensures ReturnedAt(actions, j, r, output) && LookedAt(actions, j, r, d, ctx)
    ensures var log := EventsOf(Run(actions).value.events, j);
            && (log == [Started, Terminal(ScanCancelled)] <==> ctx == Canceled)
            && (log == [Started, Terminal(ScanFailed)] <==> ctx != Canceled && output == Failed)
            && (ctx != Canceled && output.Ok? ==>
                  && log == [Started, TopologyUpdated(output.raw), Terminal(ScanCompleted)]
                  && StoredBy(actions, j, output.raw))
  {
    EveryRunKeeps(actions);
    EveryJobHasItsStory(actions, j);
    var p := Run(actions).value.jobs[j].phase;
    r, d, ctx, output :| Looked(actions, j, p, r, d, ctx, output);
    VerdictsDiffer(ctx, output);
  }

  lemma VerdictsDiffer(ctx: Ctx, output: Output)
    ensures Verdict(ctx, output) == [Started, Terminal(ScanCancelled)] <==> ctx == Canceled
    ensures Verdict(ctx, output) == [Started, Terminal(ScanFailed)] <==> ctx != Canceled && output == Failed
  {
    assert Verdict(ctx, output)[1] == if ctx == Canceled then Terminal(ScanCancelled)
                                      else if output == Failed then Terminal(ScanFailed)
                                      else TopologyUpdated(output.raw);
  }

  // ---- colliding ids ----

  /** Some interleaving of scans started with these stamps ends in `s`. */
  ghost predicate Reachable(s: State, stamps: seq<int>) {
    exists actions :: Run(actions) == Some(s) && Stamps(actions) == stamps
  }

  function Stamp(a: Action): seq<int> {
    if a.Start? then [a.stamp] else []
  }

  lemma ReachInitial()
    ensures Reachable(INITIAL, [])
  {
    assert Run([]) == Some(INITIAL) && Stamps([]) == [];
  }

  lemma ReachStep(s: State, stamps: seq<int>, a: Action, t: State)
    requires Reachable(s, stamps) && Step(s, a) == Some(t)
    ensures Reachable(t, stamps + Stamp(a))
  {
    var actions :| Run(actions) == Some(s) && Stamps(actions) == stamps;
    var longer := actions + [a];
    assert longer[..|actions|] == actions;
    assert Run(longer) == Some(t) && Stamps(longer) == stamps + Stamp(a);
  }

  lemma ReachedIDs(s: State, stamps: seq<int>)
    requires Reachable(s, stamps)
    ensures |s.jobs| == |stamps| && forall j | 0 <= j < |stamps| :: s.jobs[j].id == stamps[j]
    ensures Paired(s)
  {
    var actions :| Run(actions) == Some(s) && Stamps(actions) == stamps;
    EveryRunKeeps(actions);
    assert |IDs(s.jobs)| == |stamps| && forall j | 0 <= j < |stamps| :: IDs(s.jobs)[j] == s.jobs[j].id;
  }

  lemma ReachedCurrent(s: State, stamps: seq<int>)
    requires Reachable(s, stamps) && Sorting.Distinct(stamps)
    ensures LiveIsCurrent(s)
  {
    var actions :| Run(actions) == Some(s) && Stamps(actions) == stamps;
    FreshRunsKeepLiveCurrent(actions);
  }

  /** `n` scans were started one after the other: each cancels the one before it and is current until the next. */
  ghost predicate StartedOn(s: State, t: State, n: nat) {
    && t.closing == s.closing && t.grabbed == s.grabbed && |t.jobs| == |s.jobs| + n && (n == 0 ==> t == s)
    && (forall j | 0 <= j < |s.jobs| :: t.jobs[j].phase == s.jobs[j].phase)
    && (forall j | 0 <= j < |s.jobs| && s.shared.cancel != Some(j) :: t.jobs[j] == s.jobs[j])
    && (forall j | |s.jobs| <= j < |t.jobs| :: t.jobs[j].phase == Created)
    && (n > 0 ==> var last := |t.jobs| - 1;
                  t.shared.cancel == Some(last) && t.shared.id == Some(t.jobs[last].id)
                  && t.jobs[last].ctx == if s.closing then Canceled else Live)
  }

  lemma StartedOnce(s: State, t: State, n: nat, stamp: int, u: State)
    requires StartedOn(s, t, n) && Paired(t) && Step(t, Start(stamp)) == Some(u)
    ensures StartedOn(s, u, n + 1)
  {
  }

  lemma StartOne(s: State, u: State, n: nat, stamps: seq<int>, stamp: int) returns (t: State)
    requires Reachable(u, stamps) && StartedOn(s, u, n)
    ensures Reachable(t, stamps + [stamp]) && StartedOn(s, t, n + 1)
  {
    t := Step(u, Start(stamp)).value;
    ReachedIDs(u, stamps);
    ReachStep(u, stamps, Start(stamp), t);
    StartedOnce(s, u, n, stamp, t);
  }

  lemma {:induction false} StartAll(s: State, stamps: seq<int>, more: seq<int>) returns (t: State)
    requires Reachable(s, stamps)
    ensures Reachable(t, stamps + more) && StartedOn(s, t, |more|)
  {
    if more == [] {
      t := s;
      assert stamps + more == stamps;
    } else {
      var n := |more| - 1;
      var u := StartAll(s, stamps, more[..n]);
      t := StartOne(s, u, n, stamps + more[..n], more[n]);
      assert stamps + more[..n] + [more[n]] == stamps + more;
    }
  }

  /** Nothing but where job `j` stands, and what was told, has changed. */
  ghost predicate OnlyMoved(s: State, t: State, j: nat, p: Phase) {
    && t.shared == s.shared && t.grabbed == s.grabbed && t.closing == s.closing
    && j < |s.jobs| && t.jobs == s.jobs[j := s.jobs[j].(phase := p)]
  }

  lemma Nudge(s: State, stamps: seq<int>, j: nat, a: Action, p: Phase) returns (t: State)
    requires Reachable(s, stamps) && j < |s.jobs| && !a.Start?
    requires Step(s, a).Some? && OnlyMoved(s, Step(s, a).value, j, p)
    ensures Reachable(t, stamps) && OnlyMoved(s, t, j, p)
  {
    t := Step(s, a).value;
    ReachStep(s, stamps, a, t);
    assert stamps + Stamp(a) == stamps;
  }

  lemma MovedOn(s: State, t: State, u: State, j: nat, p: Phase, q: Phase)
    requires OnlyMoved(s, t, j, p) && OnlyMoved(t, u, j, q)
    ensures OnlyMoved(s, u, j, q)
  {
  }

  /** A job just created gets its child going. */
  lemma Launch(s: State, stamps: seq<int>, j: nat) returns (t: State)
    requires Reachable(s, stamps) && j < |s.jobs| && s.jobs[j].phase == Created
    ensures Reachable(t, stamps) && OnlyMoved(s, t, j, Running)
  {
    var u := Nudge(s, stamps, j, Advance(j), Announced);
    t := Nudge(u, stamps, j, Advance(j), Running);
    MovedOn(s, u, t, j, Announced, Running);
  }

  lemma Fail(s: State, stamps: seq<int>, j: nat) returns (t: State, log: seq<Event>)
    requires Reachable(s, stamps) && j < |s.jobs| && s.jobs[j].phase == Running
    ensures Reachable(t, stamps) && OnlyMoved(s, t, j, Clearing(log))
  {
    var outcome := if s.jobs[j].ctx == Canceled then ScanCancelled else ScanFailed;
    log := [Started, Terminal(outcome)];
    var u := Nudge(s, stamps, j, Return(j, Failed), Returned(Failed));
    var v := Nudge(u, stamps, j, Advance(j), Ending(outcome));
    MovedOn(s, u, v, j, Returned(Failed), Ending(outcome));
    t := Nudge(v, stamps, j, Advance(j), Clearing(log));
    MovedOn(s, v, t, j, Ending(outcome), Clearing(log));
  }

  /** Job `j` has a child under a live context, and no stored or grabbed cancel function reaches it. */
  ghost predicate Orphaned(s: State, j: nat) {
    && j < |s.jobs| && s.jobs[j].ctx == Live && s.jobs[j].phase == Running
    && s.shared.cancel != Some(j) && forall i | 0 <= i < |s.grabbed| :: s.grabbed[i] != j
  }

  /** Both scans have their children going, and the later one is current. */
  ghost predicate Racing(s: State, i: nat, k: nat) {
    && i < k < |s.jobs| && s.jobs[i].phase == Running && s.jobs[i].id == s.jobs[k].id
    && s.jobs[k].phase == Running && s.jobs[k].ctx == Live
    && s.shared.cancel == Some(k) && s.shared.id == Some(s.jobs[k].id) && s.grabbed == []
  }

  lemma Race(stamps: seq<int>, i: nat, k: nat) returns (s: State)
    requires i < k == |stamps| - 1 && stamps[i] == stamps[k]
    ensures Reachable(s, stamps) && Racing(s, i, k)
  {
    ReachInitial();
    var t := StartAll(INITIAL, [], stamps);
    assert [] + stamps == stamps;
    ReachedIDs(t, stamps);
    var u := Launch(t, stamps, k);
    s := Launch(u, stamps, i);
    RacingNow(t, u, s, i, k);
  }

  lemma RacingNow(t: State, u: State, s: State, i: nat, k: nat)
    requires i < k && StartedOn(INITIAL, t, k + 1) && t.jobs[i].id == t.jobs[k].id
    requires OnlyMoved(t, u, k, Running) && OnlyMoved(u, s, i, Running)
    ensures Racing(s, i, k)
  {
  }

  lemma Orphan(s: State, stamps: seq<int>, i: nat, k: nat, more: seq<int>) returns (t: State)
    requires Reachable(s, stamps) && Racing(s, i, k)
    ensures Reachable(t, stamps + more) && Orphaned(t, k)
  {
    var u, log := Fail(s, stamps, i);
    var v := Step(u, Advance(i)).value;
    ReachStep(u, stamps, Advance(i), v);
    assert stamps + Stamp(Advance(i)) == stamps;
    ClearedNow(s, u, v, i, k, log);
    t := StartAll(v, stamps, more);
    OrphanedNow(v, t, |more|, k);
  }

  lemma ClearedNow(s: State, u: State, v: State, i: nat, k: nat, log: seq<Event>)
    requires Racing(s, i, k) && OnlyMoved(s, u, i, Clearing(log)) && Step(u, Advance(i)) == Some(v)
    ensures k < |v.jobs| && v.jobs[k] == s.jobs[k] && v.shared.cancel == None && v.grabbed == []
  {
  }

  lemma OrphanedNow(v: State, t: State, n: nat, k: nat)
    requires k < |v.jobs| && v.jobs[k].ctx == Live && v.jobs[k].phase == Running && v.shared.cancel == None
             && v.grabbed == []
    requires StartedOn(v, t, n)
    ensures Orphaned(t, k)
  {
  }

  /** Wherever a stamp repeats, some run with these stamps orphans the later scan: the earlier one's clearScan, late,
      takes the later one's cancel function away. */
  lemma CollidingIDsOrphanAScan(stamps: seq<int>, i: nat, k: nat) returns (s: State)
    requires i < k < |stamps| && stamps[i] == stamps[k]
    ensures Reachable(s, stamps) && Orphaned(s, k)
  {
    var first, rest := stamps[..k + 1], stamps[k + 1..];
    assert first[i] == first[k] && first + rest == stamps;
    var t := Race(first, i, k);
    s := Orphan(t, first, i, k, rest);
  }

  /** The stamps alone decide: every run with these stamps keeps live jobs current exactly when no stamp repeats. */
  lemma LiveIsCurrentExactly(stamps: seq<int>)
    ensures (forall s | Reachable(s, stamps) :: LiveIsCurrent(s)) <==> Sorting.Distinct(stamps)
  {
    if Sorting.Distinct(stamps) {
      forall s | Reachable(s, stamps) ensures LiveIsCurrent(s) {
        ReachedCurrent(s, stamps);
      }
    } else {
      var i, k :| 0 <= i < k < |stamps| && stamps[i] == stamps[k];
      var s := CollidingIDsOrphanAScan(stamps, i, k);
      assert !LiveIsCurrent(s);
    }
  }

  /** And some run orphans a scan exactly when one does. */
  lemma OrphanExactly(stamps: seq<int>)
    ensures (exists s, j :: Reachable(s, stamps) && Orphaned(s, j)) <==> !Sorting.Distinct(stamps)
  {
    if Sorting.Distinct(stamps) {
      forall s, j | Reachable(s, stamps) ensures !Orphaned(s, j) {
        ReachedCurrent(s, stamps);
      }
    } else {
      var i, k :| 0 <= i < k < |stamps| && stamps[i] == stamps[k];
      var s := CollidingIDsOrphanAScan(stamps, i, k);
    }
  }
}
