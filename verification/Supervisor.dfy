/**
 The live supervisor (live/supervisor.py) as a state machine: one worker, any number of
 client calls. Every block under the condition lock is one step, and so is every
 reconcile, create, run and stop; their outcomes are chosen by the environment.
 */
module Supervisor {
  import opened Bytes

  // --------------------------------------------------------- cleanup evidence

  datatype CleanupError = CleanupError(action: string, message: string)

  /** A successful cleanup carries no errors (`__post_init__`). */
  datatype Cleanup_ = Cleanup(attempted: seq<string>, errors: seq<CleanupError>, verified: seq<string>, success: bool)

  type Cleanup = c: Cleanup_ | c.success ==> c.errors == [] witness Cleanup([], [], [], true)

  const EMPTY: Cleanup := Cleanup([], [], [], true)

  function Merge(a: Cleanup, b: Cleanup): Cleanup {
    Cleanup(a.attempted + b.attempted, a.errors + b.errors, a.verified + b.verified, a.success && b.success)
  }

  /** `_merge_cleanup` of any number of results. */
  function MergeAll(results: seq<Cleanup>): Cleanup {
    if results == [] then EMPTY else Merge(results[0], MergeAll(results[1..]))
  }

  lemma MergeAssociative(a: Cleanup, b: Cleanup, c: Cleanup)
    ensures Merge(Merge(a, b), c) == Merge(a, Merge(b, c))
    ensures Merge(a, EMPTY) == a == Merge(EMPTY, a)
  {
    assert a.attempted + b.attempted + c.attempted == a.attempted + (b.attempted + c.attempted);
    assert a.errors + b.errors + c.errors == a.errors + (b.errors + c.errors);
    assert a.verified + b.verified + c.verified == a.verified + (b.verified + c.verified);
    assert a.attempted + [] == a.attempted && a.errors + [] == a.errors && a.verified + [] == a.verified;
  }

  lemma {:induction false} MergeAppend(results: seq<Cleanup>, last: Cleanup)
    ensures MergeAll(results + [last]) == Merge(MergeAll(results), last)
  {
    if results == [] {
      assert [last][1..] == [] && results + [last] == [last];
      MergeAssociative(last, EMPTY, EMPTY);
    } else {
      assert (results + [last])[1..] == results[1..] + [last];
      MergeAppend(results[1..], last);
      MergeAssociative(results[0], MergeAll(results[1..]), last);
    }
  }

  /** A merge succeeds exactly when everything merged did, and then has no errors. */
  lemma {:induction false} MergeSucceeds(results: seq<Cleanup>)
    ensures MergeAll(results).success <==> forall r :: r in results ==> r.success
    ensures MergeAll(results).success ==> MergeAll(results).errors == []
  {
    if results != [] {
      MergeSucceeds(results[1..]);
      assert results == [results[0]] + results[1..];
    }
  }

  function ExceptionCleanup(action: string, message: string): Cleanup {
    Cleanup([action], [CleanupError(action, message)], [], false)
  }

  // ------------------------------------------------------------------- state

  datatype Mode = Stopped | Desktop | Kiosk

  /** `settings` stands for everything in a configuration besides the mode. */
  datatype Config = Config(mode: Mode, settings: nat)

  datatype Phase = STOPPED | STARTING | WAITING_FOR_SCREEN | HANDSHAKING | STREAMING | RETRYING | STOPPING | ERROR

  datatype Status = Status(mode: Mode, phase: Phase, retryCount: nat, nextRetryAt: Option<int>,
                           startedAt: Option<int>, product: Option<string>, version: Option<string>,
                           lastError: Option<string>)

  function Fresh(mode: Mode, phase: Phase): Status {
    Status(mode, phase, 0, None, None, None, None, None)
  }

  datatype Event = Event(phase: Phase, product: Option<string>, version: Option<string>)

  datatype AttemptResult = AttemptResult(failure: bool, error: Option<string>, product: Option<string>,
                                         version: Option<string>, streamed: nat, cleanup: Cleanup)

  /** Where the worker is; attempts are numbered in order of creation. */
  datatype Pc =
    | NotStarted
    | Reconciling
    | Checking(baseline: Cleanup)
    | Waiting
    | Judging(result: AttemptResult)
    | RetryWait
    | Rechecking
    | PreCreate
    | Creating(config: Config)
    | Installing(attempt: nat, config: Config)
    | Running(attempt: nat, config: Config)
    | Finishing(attempt: nat, outcome: Option<AttemptResult>)
    | Failed(message: string)
    | FailReconcile(failure: Cleanup)
    | FailPublish(merged: Cleanup)
    | Exited

  datatype Closer = Idle | Joining | CloseReconcile | ClosePublish(result: Cleanup) | Returned(value: Cleanup)

  datatype State = State(
    config: Config, generation: nat, closing: bool, current: Option<nat>, interrupted: set<nat>,
    lastCleanup: Option<Cleanup>, unresolved: Option<Cleanup>, closed: Option<Cleanup>, status: Status,
    // worker locals
    pc: Pc, applied: int, retryIndex: nat, pendingCleanup: Cleanup, pendingResult: Option<AttemptResult>,
    pendingGeneration: Option<nat>, checkedConfig: Config, created: nat,
    closer: Closer,
    // history, for stating properties: cleanup results since the last successful check
    owed: seq<Cleanup>, clean: bool)

  function Init(config: Config): State {
    State(config, 0, false, None, {}, None, None, None, Fresh(config.mode, STARTING),
          NotStarted, -1, 0, EMPTY, None, None, config, 0, Idle, [], false)
  }

  predicate Stale(s: State) {
    s.closing || s.generation != s.applied
  }

  // ----------------------------------------------------------------- actions

  datatype RunOutcome =
    | Returned_(result: AttemptResult)
    | Interrupted(stop: Cleanup)
    | Raised(error: string, stop: Cleanup)

  datatype ClientCall =
    | Start
    | SelectMode(mode: Mode)
    | UpdateConfig(settings: nat)
    | Restart
    | CloseBegin
    | CloseReconciled(found: Cleanup)
    | CloseFinish

  datatype WorkerStep =
    | Reconciled(baseline: Cleanup)
    | Check
    | Wake
    | Judge(now: int)
    | RetryDone(woken: bool)
    | Recheck
    | Choose
    | CreateDone(error: Option<string>)
    | Install(now: int)
    | RunDone(outcome: RunOutcome)
    | Finish
    | Die(message: string)
    | FailBlock
    | DieSilently

  datatype Action =
    | Client(call: ClientCall)
    | Worker(step: WorkerStep)
    | Publish(attempt: nat, generation: nat, event: Event)

  function RetryDelays(): (d: seq<nat>)
    ensures |d| == 5
  {
    [2, 4, 8, 16, 30]
  }

  const RETRY_RESET_SECONDS: nat := 60

  function Interrupt(s: State): State {
    if s.current.Some? then s.(interrupted := s.interrupted + {s.current.value}) else s
  }

  function Or(a: Option<string>, b: Option<string>): Option<string> {
    if a.Some? && a.value != "" then a else b
  }

  function ErrorText(errors: seq<CleanupError>): string {
    if errors == [] then ""
    else errors[0].action + ": " + errors[0].message + (if |errors| > 1 then "; " else "") + ErrorText(errors[1..])
  }

  function CleanupErrorText(c: Cleanup): string {
    if c.errors != [] then "cleanup failed: " + ErrorText(c.errors)
    else "cleanup failed: required postconditions were not verified"
  }

  function CleanupErrorStatus(s: State, c: Cleanup): Status {
    s.status.(mode := s.config.mode, phase := ERROR, nextRetryAt := None, startedAt := None,
              lastError := Some(CleanupErrorText(c)))
  }

  /** `_publish_closed_locked` */
  function PublishClosed(s: State, c: Cleanup): State {
    s.(lastCleanup := Some(c), closed := Some(c),
       status := if c.success then
                   s.status.(phase := STOPPED, nextRetryAt := None, startedAt := None, lastError := None)
                 else CleanupErrorStatus(s, c))
  }

  function WithUnresolved(s: State, c: Cleanup): Cleanup {
    if s.unresolved.Some? then Merge(s.unresolved.value, c) else c
  }

  /** The first block of the worker loop, up to its wait or its result. */
  function CheckStep(s: State, baseline: Cleanup): State {
    var checked := Merge(s.pendingCleanup, baseline);
    if s.closing then PublishClosed(Current(s), WithUnresolved(s, checked)).(pc := Exited)
    else if !checked.success then Unclean(Current(s), WithUnresolved(s, checked))
    else Clean(Current(s), checked)
  }

  /** The worker takes up the current configuration and generation. */
  function Current(s: State): State {
    s.(retryIndex := if s.generation != s.applied then 0 else s.retryIndex,
       applied := s.generation, checkedConfig := s.config)
  }

  /** A failed check blocks until the next request. */
  function Unclean(s: State, all: Cleanup): State {
    s.(unresolved := Some(all), lastCleanup := Some(all), status := CleanupErrorStatus(s, all),
       pendingCleanup := EMPTY, pendingResult := None, pendingGeneration := None, pc := Waiting)
  }

  /** After a successful check the last result is judged, or a next attempt is chosen. */
  function Clean(s: State, checked: Cleanup): State {
    var result := if s.pendingGeneration == Some(s.generation) then s.pendingResult else None;
    var t := s.(unresolved := None, lastCleanup := Some(checked),
                status := if result.Some? then
                            s.status.(product := Or(result.value.product, s.status.product),
                                      version := Or(result.value.version, s.status.version),
                                      lastError := result.value.error)
                          else s.status,
                pendingCleanup := EMPTY, pendingResult := None, pendingGeneration := None,
                owed := [], clean := true);
    if s.config.mode == Stopped then t.(status := Fresh(Stopped, STOPPED), pc := Waiting)
    else t.(pc := if result.Some? then Judging(result.value) else PreCreate)
  }

  /** A result that is not a failure ends in ERROR; a failure is retried after a delay. */
  function JudgeStep(s0: State, r: AttemptResult, now: int): State {
    var s := if r.failure && r.streamed >= RETRY_RESET_SECONDS then s0.(retryIndex := 0) else s0;
    if Stale(s) then s.(pc := Reconciling)
    else if !r.failure then
      s.(status := s.status.(phase := ERROR, nextRetryAt := None,
                             lastError := Some(if r.error.Some? && r.error.value != "" then r.error.value
                                               else "attempt ended unexpectedly")),
         pc := Waiting)
    else
      var delay := RetryDelays()[if s.retryIndex < 4 then s.retryIndex else 4];
      s.(status := s.status.(phase := RETRYING, retryCount := s.retryIndex + 1,
                             nextRetryAt := Some(now + delay), startedAt := None),
         pc := RetryWait)
  }

  function RunStep(s: State, a: nat, outcome: RunOutcome): State {
    match outcome
    case Returned_(r) => s.(pendingCleanup := r.cleanup, owed := s.owed + [r.cleanup], pc := Finishing(a, Some(r)))
    case Interrupted(stop) => s.(pendingCleanup := stop, owed := s.owed + [stop], pc := Finishing(a, None))
    case Raised(e, stop) =>
      s.(pendingCleanup := stop, owed := s.owed + [stop],
         pc := Finishing(a, Some(AttemptResult(true, Some(e), None, None, 0, stop))))
  }

  function FinishStep(s0: State, a: nat, outcome: Option<AttemptResult>): State {
    var s := if s0.current == Some(a) then s0.(current := None) else s0;
    s.(status := if outcome.Some? && !Stale(s) then s.status.(phase := STOPPING) else s.status,
       pendingResult := outcome,
       pendingGeneration := if outcome.Some? && s.applied >= 0 then Some(s.applied) else None,
       pc := Reconciling)
  }

  /** `close`, under its own lock: begin, then reconcile or join, then publish or return. */
  function CloseStep(s: State): State {
    if s.closer != Idle && !s.closer.Returned? then s
    else if s.closed.Some? then
      if s.pc in {NotStarted, Exited} then s.(closer := Returned(s.closed.value)) else s
    else BeginClose(s)
  }

  function BeginClose(s: State): State {
    Interrupt(s.(closing := true, generation := s.generation + 1,
                 status := s.status.(phase := STOPPING, nextRetryAt := None),
                 closer := if s.pc == NotStarted then CloseReconcile else Joining))
  }

  function CloseFinishStep(s: State): State {
    match s.closer {
      case ClosePublish(r) => PublishClosed(s, r).(closer := Returned(r))
      case Joining =>
        if s.pc != Exited then s
        else if s.closed.Some? then s.(closer := Returned(s.closed.value))
        else
          var r := ExceptionCleanup("supervisor-worker", "worker exited without cleanup result");
          PublishClosed(s, r).(closer := Returned(r))
      case _ => s
    }
  }

  /** A new generation: the installed attempt, if any, is told to stop. */
  function Bump(s: State, config: Config, status: Status): State {
    Interrupt(s.(config := config, generation := s.generation + 1, status := status))
  }

  /** Effect of a client call; a call on a closing supervisor raises and changes nothing. */
  function Call(s: State, call: ClientCall): State {
    match call {
      case Start => if s.closing || s.pc != NotStarted then s else s.(pc := Reconciling)
      case SelectMode(mode) =>
        if s.closing then s
        else Bump(s, s.config.(mode := mode),
                  s.status.(mode := mode, phase := if mode == Stopped then STOPPING else STARTING,
                            nextRetryAt := None, lastError := None))
      case UpdateConfig(settings) =>
        var c := s.config.(settings := settings);
        if s.closing || c == s.config then s
        else if c.mode == Stopped then s.(config := c)
        else Bump(s, c, s.status.(mode := c.mode, phase := STARTING, nextRetryAt := None, lastError := None))
      case Restart =>
        if s.closing || s.config.mode == Stopped then s
        else Bump(s, s.config, s.status.(phase := STARTING, nextRetryAt := None, lastError := None))
      case CloseBegin => CloseStep(s)
      case CloseReconciled(r) =>
        if s.closer != CloseReconcile then s else s.(closer := ClosePublish(r), owed := s.owed + [r])
      case CloseFinish => CloseFinishStep(s)
    }
  }

  function CreateStep(s: State, config: Config, error: Option<string>): State {
    if error.Some? then
      s.(pendingResult := Some(AttemptResult(true, error, None, None, 0, EMPTY)),
         pendingGeneration := if s.applied >= 0 then Some(s.applied) else None, pc := Reconciling)
    else s.(created := s.created + 1, pc := Installing(s.created, config))
  }

  function InstallStep(s: State, attempt: nat, config: Config, now: int): State {
    if Stale(s) then s.(pc := Reconciling)
    else s.(current := Some(attempt), interrupted := s.interrupted - {attempt},
            status := Fresh(config.mode, STARTING).(retryCount := s.retryIndex, startedAt := Some(now)),
            clean := false, pc := Running(attempt, config))
  }

  /** The handler of the worker's entry point. */
  function FailStep(s: State, m: string): State {
    Interrupt(s.(closing := true, generation := s.generation + 1,
                 status := s.status.(phase := ERROR, nextRetryAt := None, startedAt := None,
                                     lastError := Some("supervisor worker failed: " + m)),
                 pc := FailReconcile(ExceptionCleanup("supervisor-worker", m))))
  }

  function DieStep(s: State, m: string): State {
    if s.pc in {NotStarted, Exited} || Failing(s.pc) then s else s.(pc := Failed(m))
  }

  /** Effect of a worker step that the worker's position allows; otherwise nothing happens. */
  function Work(s: State, step: WorkerStep): State {
    if step.Die? then DieStep(s, step.message) else Advance(s, step)
  }

  function Advance(s: State, step: WorkerStep): State {
    match s.pc {
      case Reconciling =>
        if step.Reconciled? then s.(pc := Checking(step.baseline), owed := s.owed + [step.baseline]) else s
      case Checking(baseline) => if step.Check? then CheckStep(s, baseline) else s
      case Waiting => if step.Wake? && Stale(s) then s.(pc := Reconciling) else s
      case Judging(r) => if step.Judge? then JudgeStep(s, r, step.now) else s
      case RetryWait =>
        if !step.RetryDone? then s
        else if step.woken then s.(pc := Reconciling)
        else s.(retryIndex := if s.retryIndex + 1 < 4 then s.retryIndex + 1 else 4, pc := Rechecking)
      case Rechecking => if step.Recheck? then s.(pc := if Stale(s) then Reconciling else PreCreate) else s
      case PreCreate => if step.Choose? then s.(pc := if Stale(s) then Reconciling else Creating(s.config)) else s
      case Creating(config) => if step.CreateDone? then CreateStep(s, config, step.error) else s
      case Installing(attempt, config) => if step.Install? then InstallStep(s, attempt, config, step.now) else s
      case Running(attempt, _) => if step.RunDone? then RunStep(s, attempt, step.outcome) else s
      case Finishing(attempt, outcome) => if step.Finish? then FinishStep(s, attempt, outcome) else s
      case Failed(m) => if step.FailBlock? then FailStep(s, m) else s
      case FailReconcile(failure) =>
        if step.Reconciled? then s.(pc := FailPublish(Merge(failure, step.baseline)))
        else if step.DieSilently? then s.(pc := Exited) else s
      case FailPublish(r) => if step.Check? then PublishClosed(s, r).(pc := Exited) else s
      case NotStarted => s
      case Exited => s
    }
  }

  /** `_publish_attempt_event`, called back by an attempt of any age. */
  function PublishEvent(s: State, attempt: nat, generation: nat, e: Event): State {
    if s.closing || s.generation != generation || s.current != Some(attempt) then s
    else s.(status := s.status.(phase := e.phase, product := Or(e.product, s.status.product),
                                version := Or(e.version, s.status.version)))
  }

  function Do(s: State, a: Action): State {
    match a
    case Client(call) => Call(s, call)
    case Worker(step) => Work(s, step)
    case Publish(attempt, generation, event) => PublishEvent(s, attempt, generation, event)
  }

  /** The state after any interleaving of client and worker steps. */
  function Execute(s: State, actions: seq<Action>): State
    decreases |actions|
  {
    if actions == [] then s
    else Do(Execute(s, actions[..|actions| - 1]), actions[|actions| - 1])
  }

  // --------------------------------------------------------------- invariant

  /** Past a successful check in this round, and not yet past the attempt's return. */
  predicate Committed(pc: Pc) {
    pc.Judging? || pc.RetryWait? || pc.Rechecking? || pc.PreCreate? || pc.Creating? || pc.Installing? || pc.Running?
  }

  predicate Failing(pc: Pc) {
    pc.Failed? || pc.FailReconcile? || pc.FailPublish?
  }

  /** Every cleanup result since the last successful check is accounted for, in order. */
  predicate Accounted(s: State) {
    var before := if s.unresolved.Some? then s.unresolved.value else EMPTY;
    MergeAll(s.owed) == match s.pc
      case Checking(baseline) => Merge(Merge(before, s.pendingCleanup), baseline)
      case _ => Merge(before, s.pendingCleanup)
  }

  predicate Inv(s: State) {
    && -1 <= s.applied <= s.generation
    && s.retryIndex <= 4
    && (s.current.Some? ==>
          && s.current.value < s.created
          && (s.pc.Running? || s.pc.Finishing? || Failing(s.pc) || s.pc == Exited)
          && (s.pc.Running? ==> s.pc.attempt == s.current.value)
          && (s.pc.Finishing? ==> s.pc.attempt == s.current.value)
          && (Stale(s) ==> s.current.value in s.interrupted)
          && (s.pc == Exited ==> s.closing))
    && (s.pc.Installing? ==> s.pc.attempt < s.created)
    && (s.pc.Running? ==> s.current == Some(s.pc.attempt))
    && (Committed(s.pc) ==>
          && (!s.pc.Running? ==> s.clean)
          && s.owed == [] && s.pendingCleanup == EMPTY && s.unresolved.None?
          && s.applied >= 0 && s.checkedConfig.mode != Stopped
          && (!Stale(s) ==> s.config == s.checkedConfig))
    && (s.pc.Creating? ==> s.pc.config == s.checkedConfig)
    && (s.pc.Installing? ==> s.pc.config == s.checkedConfig)
    && (s.pc.Running? ==> s.pc.config == s.checkedConfig)
    && (s.unresolved.Some? ==> !s.unresolved.value.success)
    && (s.pc.Checking? ==> s.owed != [] && s.owed[|s.owed| - 1] == s.pc.baseline)
    && (!Failing(s.pc) && s.closed.None? && s.pc != Exited && s.pc != NotStarted ==> Accounted(s))
    && (s.pc == NotStarted ==>
          && s.unresolved.None? && s.pendingCleanup == EMPTY && s.applied == -1
          && s.owed == (if s.closer.ClosePublish? then [s.closer.result]
                        else if s.closed.Some? then [s.closed.value] else []))
    && (s.closed.Some? ==> s.closing && s.pc in {NotStarted, Exited} && ClosedRight(s))
    && (s.closer in {CloseReconcile} || s.closer.ClosePublish? ==> s.pc == NotStarted && s.closing && s.closed.None?)
    && (s.closer == Joining ==> s.closing && s.pc != NotStarted)
    && (s.closer.Returned? ==> s.closed == Some(s.closer.value))
    && (s.pc.FailReconcile? || s.pc.FailPublish? ==> s.closing)
    && (s.pc.FailReconcile? ==> !s.pc.failure.success)
    && (s.pc.FailPublish? ==> !s.pc.merged.success)
    && (s.pc == Exited ==> s.closing)
  }

  /** What close returns: all cleanup evidence still owed, or a failure. */
  predicate ClosedRight(s: State) {
    s.closed.Some? ==> !s.closed.value.success || (s.owed != [] && s.closed.value == MergeAll(s.owed))
  }

  /** What the check merges is all that is owed. */
  lemma CheckedIsOwed(s: State, baseline: Cleanup)
    requires s.pc == Checking(baseline) && Accounted(s)
    ensures var checked := Merge(s.pendingCleanup, baseline);
            && WithUnresolved(s, checked) == MergeAll(s.owed)
            && Merge(WithUnresolved(s, checked), EMPTY) == MergeAll(s.owed)
  {
    var before := if s.unresolved.Some? then s.unresolved.value else EMPTY;
    MergeAssociative(before, s.pendingCleanup, baseline);
    MergeAssociative(Merge(s.pendingCleanup, baseline), EMPTY, EMPTY);
    MergeAssociative(WithUnresolved(s, Merge(s.pendingCleanup, baseline)), EMPTY, EMPTY);
  }

  lemma CheckKeeps(s: State, baseline: Cleanup)
    requires Inv(s) && s.pc == Checking(baseline)
    ensures Inv(CheckStep(s, baseline))
  {
    CheckedIsOwed(s, baseline);
    var checked := Merge(s.pendingCleanup, baseline);
    if s.closing {
      CheckClosingKeeps(s, WithUnresolved(s, checked));
    } else if !checked.success {
      UncleanKeeps(s, checked);
    } else {
      CleanKeeps(s, checked);
    }
  }

  lemma CheckClosingKeeps(s: State, all: Cleanup)
    requires Inv(s) && s.pc.Checking? && s.closing && all == MergeAll(s.owed)
    ensures Inv(PublishClosed(Current(s), all).(pc := Exited))
  {
  }

  lemma UncleanKeeps(s: State, checked: Cleanup)
    requires Inv(s) && s.pc.Checking? && !s.closing && !checked.success
    requires var all := WithUnresolved(s, checked); all == MergeAll(s.owed) && Merge(all, EMPTY) == MergeAll(s.owed)
    ensures Inv(Unclean(Current(s), WithUnresolved(s, checked)))
  {
  }

  lemma CleanKeeps(s: State, checked: Cleanup)
    requires Inv(s) && s.pc.Checking? && !s.closing
    ensures Inv(Clean(Current(s), checked))
  {
    MergeAssociative(EMPTY, EMPTY, EMPTY);
    assert MergeAll([]) == EMPTY;
  }

  lemma RunKeeps(s: State, a: nat, outcome: RunOutcome)
    requires Inv(s) && s.pc.Running? && s.pc.attempt == a
    ensures Inv(RunStep(s, a, outcome))
  {
    var c := match outcome case Returned_(r) => r.cleanup case Interrupted(x) => x case Raised(_, x) => x;
    MergeAppend(s.owed, c);
    MergeAssociative(c, EMPTY, EMPTY);
  }

  lemma JudgeKeeps(s: State, r: AttemptResult, now: int)
    requires Inv(s) && s.pc == Judging(r)
    ensures Inv(JudgeStep(s, r, now))
  {
    MergeAssociative(EMPTY, EMPTY, EMPTY);
  }

  lemma CreateKeeps(s: State, config: Config, error: Option<string>)
    requires Inv(s) && s.pc == Creating(config)
    ensures Inv(CreateStep(s, config, error))
  {
    MergeAssociative(EMPTY, EMPTY, EMPTY);
  }

  lemma InstallKeeps(s: State, attempt: nat, config: Config, now: int)
    requires Inv(s) && s.pc == Installing(attempt, config)
    ensures Inv(InstallStep(s, attempt, config, now))
  {
    MergeAssociative(EMPTY, EMPTY, EMPTY);
  }

  lemma FinishKeeps(s: State, attempt: nat, outcome: Option<AttemptResult>)
    requires Inv(s) && s.pc == Finishing(attempt, outcome)
    ensures Inv(FinishStep(s, attempt, outcome))
  {
  }

  lemma FailKeeps(s: State, m: string)
    requires Inv(s) && s.pc == Failed(m)
    ensures Inv(FailStep(s, m))
  {
  }

  lemma FailReconcileKeeps(s: State, step: WorkerStep)
    requires Inv(s) && s.pc.FailReconcile?
    ensures Inv(Advance(s, step))
  {
  }

  lemma FailPublishKeeps(s: State, step: WorkerStep)
    requires Inv(s) && s.pc.FailPublish?
    ensures Inv(Advance(s, step))
  {
    if step.Check? { FailedPublishKeeps(s, s.pc.merged); }
  }

  lemma FailedPublishKeeps(s: State, r: Cleanup)
    requires Inv(s) && s.pc == FailPublish(r)
    ensures Inv(PublishClosed(s, r).(pc := Exited))
  {
  }

  lemma DieKeeps(s: State, m: string)
    requires Inv(s)
    ensures Inv(DieStep(s, m))
  {
  }

  lemma IdleKeeps(s: State, step: WorkerStep)
    requires Inv(s) && s.pc in {Waiting, RetryWait, Rechecking, PreCreate}
    ensures Inv(Advance(s, step))
  {
    MergeAssociative(EMPTY, EMPTY, EMPTY);
  }

  lemma RoundKeeps(s: State, step: WorkerStep)
    requires Inv(s) && (Committed(s.pc) || s.pc.Waiting?)
    ensures Inv(Advance(s, step))
  {
    match s.pc
    case Judging(r) => if step.Judge? { JudgeKeeps(s, r, step.now); }
    case Creating(config) => if step.CreateDone? { CreateKeeps(s, config, step.error); }
    case Installing(attempt, config) => if step.Install? { InstallKeeps(s, attempt, config, step.now); }
    case Running(attempt, _) => if step.RunDone? { RunKeeps(s, attempt, step.outcome); }
    case _ => IdleKeeps(s, step);
  }

  lemma WorkKeeps(s: State, step: WorkerStep)
    requires Inv(s)
    ensures Inv(Work(s, step))
  {
    if step.Die? {
      DieKeeps(s, step.message);
    } else if Committed(s.pc) || s.pc.Waiting? {
      RoundKeeps(s, step);
    } else {
      match s.pc
      case Reconciling =>
        if step.Reconciled? { MergeAppend(s.owed, step.baseline); }
      case Checking(baseline) => CheckKeeps(s, baseline);
      case Finishing(attempt, outcome) => FinishKeeps(s, attempt, outcome);
      case Failed(m) => FailKeeps(s, m);
      case FailReconcile(_) => FailReconcileKeeps(s, step);
      case FailPublish(_) => FailPublishKeeps(s, step);
      case NotStarted =>
      case Exited =>
    }
  }

  lemma CloseKeeps(s: State)
    requires Inv(s)
    ensures Inv(CloseStep(s))
  {
    if (s.closer == Idle || s.closer.Returned?) && s.closed.None? { BeginCloseKeeps(s); }
  }

  lemma BeginCloseKeeps(s: State)
    requires Inv(s) && (s.closer == Idle || s.closer.Returned?) && s.closed.None?
    ensures Inv(BeginClose(s))
  {
  }

  lemma CloseEndKeeps(s: State, call: ClientCall)
    requires Inv(s) && (call.CloseReconciled? || call.CloseFinish?)
    ensures Inv(Call(s, call))
  {
    if call.CloseReconciled? {
      assert [] + [call.found] == [call.found];
    } else if s.closer.ClosePublish? {
      var r := s.closer.result;
      assert [] + [r] == [r];
      MergeAppend([], r);
      MergeAssociative(r, EMPTY, EMPTY);
    }
  }

  lemma BumpKeeps(s: State, config: Config, status: Status)
    requires Inv(s)
    ensures Inv(Bump(s, config, status))
  {
  }

  lemma CallKeeps(s: State, call: ClientCall)
    requires Inv(s)
    ensures Inv(Call(s, call))
  {
    match call
    case Start => MergeAssociative(EMPTY, EMPTY, EMPTY);
    case SelectMode(mode) => if !s.closing { BumpKeeps(s, s.config.(mode := mode), Call(s, call).status); }
    case UpdateConfig(settings) =>
      if !s.closing && s.config.mode != Stopped { BumpKeeps(s, s.config.(settings := settings), Call(s, call).status); }
    case Restart => BumpKeeps(s, s.config, Call(s, call).status);
    case CloseBegin => CloseKeeps(s);
    case _ => CloseEndKeeps(s, call);
  }

  lemma {:induction false} AlwaysInv(config: Config, actions: seq<Action>)
    ensures Inv(Execute(Init(config), actions))
    decreases |actions|
  {
    if actions != [] {
      var s := Execute(Init(config), actions[..|actions| - 1]);
      AlwaysInv(config, actions[..|actions| - 1]);
      match actions[|actions| - 1]
      case Client(call) => CallKeeps(s, call);
      case Worker(step) => WorkKeeps(s, step);
      case Publish(_, _, _) =>
    }
  }

  // ------------------------------------------------------------ safety of runs

  /** Taking `a` in state `s` starts an attempt. */
  predicate Starts(s: State, a: Action) {
    s.pc.Installing? && a.Worker? && a.step.Install? && !Stale(s)
  }

  /** Taking `a` in `s` checks the pending cleanup and a fresh reconcile, and both succeeded. */
  predicate ChecksOut(s: State, a: Action) {
    s.pc.Checking? && a == Worker(Check) && !s.closing && s.pendingCleanup.success && s.pc.baseline.success
  }

  /** An attempt starts only cleanly, on the current non-STOPPED configuration, uninterrupted. */
  lemma StartStep(s: State, a: Action)
    requires Inv(s)
    ensures Starts(s, a) ==>
              var t := Do(s, a);
              && s.clean && t.pc.Running? && t.pc.config == t.config && t.config.mode != Stopped
              && t.applied == t.generation && !t.closing
              && t.current == Some(t.pc.attempt) && t.pc.attempt !in t.interrupted
  {
  }

  /** A client call only starts the worker, and checks nothing. */
  lemma CallKeepsPosition(s: State, call: ClientCall)
    ensures Call(s, call).pc in {s.pc, Reconciling} && Call(s, call).clean == s.clean
  {
  }

  /** Nothing else makes the worker run an attempt. */
  lemma OnlyStartsRun(s: State, a: Action)
    requires !s.pc.Running? && !Starts(s, a)
    ensures !Do(s, a).pc.Running?
  {
    match a
    case Client(call) => CallKeepsPosition(s, call);
    case Worker(step) => OnlyInstallRuns(s, step);
    case Publish(_, _, _) =>
  }

  lemma OnlyInstallRuns(s: State, step: WorkerStep)
    requires !s.pc.Running? && (s.pc.Installing? && step.Install? ==> Stale(s))
    ensures !Work(s, step).pc.Running?
  {
    if s.pc.Checking? { CheckRunsNothing(s, s.pc.baseline); }
    else if s.pc.Judging? && step.Judge? { JudgeRunsNothing(s, s.pc.result, step.now); }
  }

  lemma CheckRunsNothing(s: State, baseline: Cleanup)
    ensures !CheckStep(s, baseline).pc.Running?
    ensures CheckStep(s, baseline).pc == Exited ==> CheckStep(s, baseline).closed.Some?
  {
  }

  lemma JudgeRunsNothing(s: State, r: AttemptResult, now: int)
    ensures JudgeStep(s, r, now).pc in {Reconciling, Waiting, RetryWait}
  {
  }

  lemma CleanStep(s: State, a: Action)
    requires Do(s, a).clean
    ensures ChecksOut(s, a) || (s.clean && !Starts(s, a))
  {
    if a.Client? { CallKeepsPosition(s, a.call); }
  }

  /** The state in which action `i` of a history is taken. */
  function Before(config: Config, actions: seq<Action>, i: nat): State
    requires i <= |actions|
  {
    Execute(Init(config), actions[..i])
  }

  ghost predicate CheckedSince(config: Config, actions: seq<Action>, j: nat, k: nat)
    requires j <= |actions|
  {
    && k < j && ChecksOut(Before(config, actions, k), actions[k])
    && forall i :: k < i < j ==> !Starts(Before(config, actions, i), actions[i])
  }

  lemma BeforeNext(config: Config, actions: seq<Action>, j: nat)
    requires j < |actions|
    ensures Before(config, actions, j + 1) == Do(Before(config, actions, j), actions[j])
  {
    assert actions[..j + 1][..j] == actions[..j];
  }

  lemma {:induction false} CleanHasCheck(config: Config, actions: seq<Action>, j: nat) returns (k: nat)
    requires j <= |actions| && Before(config, actions, j).clean
    ensures CheckedSince(config, actions, j, k)
    decreases j
  {
    assert j > 0;
    var s, a := Before(config, actions, j - 1), actions[j - 1];
    BeforeNext(config, actions, j - 1);
    CleanStep(s, a);
    if ChecksOut(s, a) { k := j - 1; } else { k := CleanHasCheck(config, actions, j - 1); }
  }

  /**
   In every interleaving, an attempt starts only if since the previous start a check of
   the previous attempt's cleanup and of a fresh reconcile succeeded; it starts on the
   current configuration, which is not STOPPED, in the applied generation, with its
   interrupt clear.
   */
  lemma AttemptsStartClean(config: Config, actions: seq<Action>, j: nat)
    requires j < |actions| && Starts(Before(config, actions, j), actions[j])
    ensures exists k: nat :: CheckedSince(config, actions, j, k)
    ensures var t := Do(Before(config, actions, j), actions[j]);
            && t.pc.Running? && t.pc.config == t.config && t.config.mode != Stopped
            && t.applied == t.generation && !t.closing
            && t.current == Some(t.pc.attempt) && t.pc.attempt !in t.interrupted
  {
    AlwaysInv(config, actions[..j]);
    StartStep(Before(config, actions, j), actions[j]);
    var k := CleanHasCheck(config, actions, j);
  }

  /** Whenever an attempt is installed after the world moved on, it has been told to stop. */
  lemma InstalledStaleIsInterrupted(config: Config, actions: seq<Action>)
    ensures var s := Execute(Init(config), actions);
            s.current.Some? && (s.closing || s.generation != s.applied) ==> s.current.value in s.interrupted
  {
    AlwaysInv(config, actions);
  }

  /** An event reaches the status only from the installed attempt, in its own generation, while open. */
  lemma StaleEventsIgnored(config: Config, actions: seq<Action>, attempt: nat, generation: nat, e: Event)
    ensures var s := Execute(Init(config), actions);
            var t := Do(s, Publish(attempt, generation, e));
            && t == s.(status := t.status)
            && (t.status != s.status ==>
                  !s.closing && s.generation == generation && s.current == Some(attempt)
                  && (s.pc.Running? || s.pc.Finishing? || s.pc.Failed?))
  {
    AlwaysInv(config, actions);
  }

  // -------------------------------------------------------------------- close

  /** The closed result is written once. */
  lemma ClosedIsFinal(config: Config, actions: seq<Action>, a: Action)
    ensures var s := Execute(Init(config), actions);
            s.closed.Some? ==> Do(s, a).closed == s.closed && Do(s, a).owed == s.owed
  {
    AlwaysInv(config, actions);
  }

  /**
   Every `close` returns that result. It reports success only if every cleanup result
   since the last successful check (the final reconcile, the last attempt's cleanup and
   every unresolved earlier one) succeeded, and then it is exactly their merge.
   */
  lemma CloseIsHonest(config: Config, actions: seq<Action>)
    ensures var s := Execute(Init(config), actions);
            && (s.closer.Returned? ==> s.closed == Some(s.closer.value))
            && (s.closed.Some? && s.closed.value.success ==>
                  && s.owed != [] && s.closed.value == MergeAll(s.owed) && s.closed.value.errors == []
                  && forall r :: r in s.owed ==> r.success)
  {
    AlwaysInv(config, actions);
    MergeSucceeds(Execute(Init(config), actions).owed);
  }

  /** Steps a closing worker still takes at most: its attempt's return and one reconcile. */
  function Rank(pc: Pc): nat {
    match pc
    case NotStarted => 0
    case Exited => 0
    case FailPublish(_) => 1
    case FailReconcile(_) => 2
    case Failed(_) => 3
    case Checking(_) => 5
    case Reconciling => 6
    case RetryWait => 8
    case Creating(_) => 8
    case Running(_, _) => 8
    case _ => 7
  }

  /** The step is one that the worker's position allows. */
  predicate Fits(s: State, step: WorkerStep) {
    match s.pc
    case Reconciling => step.Reconciled?
    case Checking(_) => step.Check?
    case Waiting => step.Wake? && Stale(s)
    case Judging(_) => step.Judge?
    case RetryWait => step.RetryDone?
    case Rechecking => step.Recheck?
    case PreCreate => step.Choose?
    case Creating(_) => step.CreateDone?
    case Installing(_, _) => step.Install?
    case Running(_, _) => step.RunDone?
    case Finishing(_, _) => step.Finish?
    case Failed(_) => step.FailBlock?
    case FailReconcile(_) => step.Reconciled? || step.DieSilently?
    case FailPublish(_) => step.Check?
    case NotStarted => false
    case Exited => false
  }

  lemma OnlyFittingStepsCount(s: State, step: WorkerStep)
    requires !step.Die? && !Fits(s, step)
    ensures Work(s, step) == s
  {
  }

  lemma ClosingRound(s: State, step: WorkerStep)
    requires s.closing && Fits(s, step) && !step.Die?
    requires s.pc.Checking? || s.pc.Judging? || s.pc.Installing? || s.pc.Finishing? || s.pc.Running?
    ensures var t := Advance(s, step); t.closing && Rank(t.pc) < Rank(s.pc)
  {
    match s.pc
    case Checking(baseline) => assert CheckStep(s, baseline).pc == Exited;
    case Judging(r) => assert JudgeStep(s, r, step.now).pc == Reconciling;
    case Installing(a, c) => assert InstallStep(s, a, c, step.now).pc == Reconciling;
    case Finishing(a, o) => assert FinishStep(s, a, o).pc == Reconciling;
    case Running(a, _) => assert RunStep(s, a, step.outcome).pc.Finishing?;
  }

  lemma ClosingStep(s: State, step: WorkerStep)
    requires s.closing && Fits(s, step) && !step.Die?
    ensures var t := Work(s, step); t.closing && Rank(t.pc) < Rank(s.pc)
  {
    if s.pc.Checking? || s.pc.Judging? || s.pc.Installing? || s.pc.Finishing? || s.pc.Running? {
      ClosingRound(s, step);
    }
  }

  /** A step that fits, whatever the environment answers. */
  function Offered(s: State): WorkerStep {
    match s.pc
    case Reconciling => Reconciled(EMPTY)
    case FailReconcile(_) => Reconciled(EMPTY)
    case Waiting => Wake
    case Judging(_) => Judge(0)
    case RetryWait => RetryDone(true)
    case Rechecking => Recheck
    case PreCreate => Choose
    case Creating(_) => CreateDone(Some("refused"))
    case Installing(_, _) => Install(0)
    case Running(_, _) => RunDone(Interrupted(EMPTY))
    case Finishing(_, _) => Finish
    case Failed(_) => FailBlock
    case _ => Check
  }

  /** Dying lowers the rank too: what is left is one reconcile and the publication. */
  lemma DyingTerminates(s: State, m: string)
    requires s.pc !in {NotStarted, Exited} && !Failing(s.pc)
    ensures Rank(DieStep(s, m).pc) < Rank(s.pc)
  {
  }

  /** Clients and events neither reopen a closing supervisor nor hold the worker up. */
  lemma OthersKeepClosing(s: State, call: ClientCall, attempt: nat, generation: nat, e: Event)
    requires s.closing
    ensures Call(s, call).closing && Call(s, call).pc == s.pc
    ensures PublishEvent(s, attempt, generation, e) == s
  {
  }

  /** `a` is a step that the worker really takes. */
  predicate Takes(s: State, a: Action) {
    a.Worker? && if a.step.Die? then s.pc !in {NotStarted, Exited} && !Failing(s.pc) else Fits(s, a.step)
  }

  /** How many worker steps, attempt returns and reconciles a run takes. */
  datatype Tally = Tally(steps: nat, attempts: nat, reconciles: nat)

  function Taken(s: State, actions: seq<Action>): Tally
    decreases |actions|
  {
    if actions == [] then Tally(0, 0, 0)
    else
      var n, a := |actions| - 1, actions[|actions| - 1];
      var prior := Taken(s, actions[..n]);
      if !Takes(Execute(s, actions[..n]), a) then prior
      else Tally(prior.steps + 1, prior.attempts + (if a.step.RunDone? then 1 else 0),
                 prior.reconciles + (if a.step.Reconciled? then 1 else 0))
  }

  lemma ClosingAction(s: State, a: Action)
    requires s.closing
    ensures Do(s, a).closing
    ensures if Takes(s, a) then Rank(Do(s, a).pc) < Rank(s.pc) else Do(s, a).pc == s.pc
  {
    match a
    case Client(call) => OthersKeepClosing(s, call, 0, 0, Event(STOPPED, None, None));
    case Worker(step) =>
      if step.Die? {
      } else if Fits(s, step) {
        ClosingStep(s, step);
      } else {
        OnlyFittingStepsCount(s, step);
      }
    case Publish(_, _, _) =>
  }

  /**
   Once closing is set, in every run each step the worker takes lowers the rank: it takes
   at most eight more, among them at most one attempt's return and at most two reconciles,
   its own and that of its failure handler; and it is never stuck before it has exited.
   */
  lemma {:induction false} ClosingTerminates(s: State, actions: seq<Action>)
    requires s.closing
    ensures var t, taken := Execute(s, actions), Taken(s, actions);
            && t.closing
            && taken.steps + Rank(t.pc) <= Rank(s.pc) <= 8
            && taken.attempts + (if Rank(t.pc) >= 8 then 1 else 0) <= 1
            && taken.reconciles + (if Rank(t.pc) >= 6 then 1 else 0) + (if Rank(t.pc) >= 2 then 1 else 0) <= 2
            && (t.pc !in {NotStarted, Exited} ==> Takes(t, Worker(Offered(t))))
    decreases |actions|
  {
    if actions != [] {
      var n := |actions| - 1;
      ClosingTerminates(s, actions[..n]);
      ClosingAction(Execute(s, actions[..n]), actions[n]);
    }
  }

  /** The worker that exits, except by dying in its own failure handler, has published. */
  lemma ExitPublishes(s: State, step: WorkerStep)
    requires s.pc != Exited && Work(s, step).pc == Exited && step != DieSilently
    ensures Work(s, step).closed.Some?
  {
    if s.pc.Checking? { CheckRunsNothing(s, s.pc.baseline); }
    else if s.pc.Judging? && step.Judge? { JudgeRunsNothing(s, s.pc.result, step.now); }
  }
}
