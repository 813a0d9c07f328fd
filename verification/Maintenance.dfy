/**
 The enrollment lifecycle (packaging_tools/maintenance.py): one journal of write-ahead
 operations, their effects on the system, rollback and removal.

 A call has the `power` for some number of journal writes; then it dies or an I/O error
 raises. An effect may fail before or after it changed the system. Between calls the
 machine may restart, which starts the helper if it is enabled; nobody else changes it.
 */
module Maintenance {
  import opened Bytes

  // --------------------------------------------------------------- data model

  datatype Operation = Enrollment | UserConfigure | Reload | HelperEnable | HelperStart
                     | UserRestore | HelperStop | HelperDisable | EnrollmentRestore

  datatype Progress = NotStarted | Pending | Done

  datatype Operations = Operations(
    enrollment: Progress, userConfigure: Progress, reload: Progress, helperEnable: Progress, helperStart: Progress,
    userRestore: Progress, helperStop: Progress, helperDisable: Progress, enrollmentRestore: Progress)

  datatype Phase = Prepared | Configuring | AwaitingDesktopRestart | RollbackPending | RolledBack
                 | Removing | PendingDesktopTransition | RemoveReady

  datatype Receipt = Configured | Restored | NotConfigured

  datatype Record = Record(phase: Phase, ops: Operations, userSetup: Option<Receipt>, userRestore: Option<Receipt>)

  /** With this much power no journal write of a call fails. */
  const UNINTERRUPTED := 13

  const NONE_STARTED :=
    Operations(NotStarted, NotStarted, NotStarted, NotStarted, NotStarted,
               NotStarted, NotStarted, NotStarted, NotStarted)

  function Put(ops: Operations, op: Operation, p: Progress): Operations {
    match op
    case Enrollment => ops.(enrollment := p)
    case UserConfigure => ops.(userConfigure := p)
    case Reload => ops.(reload := p)
    case HelperEnable => ops.(helperEnable := p)
    case HelperStart => ops.(helperStart := p)
    case UserRestore => ops.(userRestore := p)
    case HelperStop => ops.(helperStop := p)
    case HelperDisable => ops.(helperDisable := p)
    case EnrollmentRestore => ops.(enrollmentRestore := p)
  }

  /** `_validate` */
  predicate ValidRecord(r: Record) {
    && (r.userSetup.Some? ==> r.userSetup.value == Configured)
    && (r.userRestore.Some? ==> r.userRestore.value in {Restored, NotConfigured})
    && (r.phase == AwaitingDesktopRestart ==>
          && r.ops.enrollment == Done && r.ops.userConfigure == Done && r.ops.reload == Done
          && r.ops.helperEnable == Done && r.ops.helperStart == Done && r.userSetup.Some?)
    && (r.phase in {PendingDesktopTransition, RemoveReady} ==> r.ops.userRestore == Done && r.userRestore.Some?)
    && (r.phase == RemoveReady ==>
          r.ops.helperStop == Done && r.ops.helperDisable == Done && r.ops.enrollmentRestore == Done)
  }

  /** The operations of `configure`, in their order. */
  const SETUP := [Enrollment, UserConfigure, Reload, HelperEnable, HelperStart]

  /** The operations of `prepare_remove`, in their order. */
  const REMOVAL := [UserRestore, HelperStop, HelperDisable, EnrollmentRestore]

  /** The operations that undo what was started, in their order. */
  function Undoing(ops: Operations): seq<Operation> {
    If(ops.userConfigure, UserRestore) + If(ops.helperStart, HelperStop)
    + (If(ops.helperEnable, HelperDisable) + If(ops.enrollment, EnrollmentRestore))
  }

  function If(started: Progress, op: Operation): seq<Operation> {
    if started == NotStarted then [] else [op]
  }

  /** What the operations have made of the system. */
  datatype System = System(enrollment: bool, userConfig: bool, enabled: bool, active: bool)

  const UNDONE := System(false, false, false, false)

  /** The system after an operation took effect. */
  function Effect(s: System, op: Operation): System {
    match op
    case Enrollment => s.(enrollment := true)
    case UserConfigure => s.(userConfig := true)
    case Reload => s
    case HelperEnable => s.(enabled := true)
    case HelperStart => s.(active := true)
    case UserRestore => s.(userConfig := false)
    case HelperStop => s.(active := false)
    case HelperDisable => s.(enabled := false)
    case EnrollmentRestore => s.(enrollment := false)
  }

  /** Nothing is in effect that the journal does not announce; only a restart starts more. */
  predicate Announced(s: System, ops: Operations)
  {
    && (s.enrollment ==> ops.enrollment != NotStarted)
    && (s.userConfig ==> ops.userConfigure != NotStarted)
    && (s.enabled ==> ops.helperEnable != NotStarted)
    && (s.active ==> ops.helperStart != NotStarted || s.enabled)
  }

  /** ... and the helper's start is announced too. */
  predicate Owned(s: System, ops: Operations) {
    Announced(s, ops) && (s.active ==> ops.helperStart != NotStarted)
  }

  lemma PutOwned(s: System, ops: Operations, op: Operation, p: Progress)
    requires Owned(s, ops) && p != NotStarted
    ensures Owned(s, Put(ops, op, p)) && Put(Put(ops, op, p), op, p) == Put(ops, op, p)
  {
  }

  lemma PutTwice(s: System, ops: Operations, op: Operation)
    requires Owned(s, Put(ops, op, Pending))
    ensures Owned(s, Put(ops, op, Done))
  {
  }

  lemma EffectOwned(s: System, ops: Operations, op: Operation)
    requires Owned(s, ops) && ops == Put(ops, op, Pending)
    ensures Owned(Effect(s, op), ops)
  {
  }

  /** The operations at the end of a rollback: what was started has been undone. */
  function AfterRollback(ops: Operations): Operations {
    ops.(userRestore := if ops.userConfigure != NotStarted then Done else ops.userRestore,
         helperStop := if ops.helperStart != NotStarted then Done else ops.helperStop,
         helperDisable := if ops.helperEnable != NotStarted then Done else ops.helperDisable,
         enrollmentRestore := if ops.enrollment != NotStarted then Done else ops.enrollmentRestore)
  }

  /** The operations at the end of a removal. */
  function AfterRemoval(ops: Operations): Operations {
    ops.(userRestore := Done, helperStop := Done, helperDisable := Done, enrollmentRestore := Done)
  }

  /** `Reverted` and `Unreverted` are raised after a configuration failed; `Raised` before it began. */
  datatype Outcome = Ok(phase: Phase) | Absent | Raised | Dead | Reverted | Unreverted

  class Maintenance {
    var record: Option<Record>
    var system: System
    var power: nat
    var smooth: bool                 // during this call no check raises and no effect fails
    var session: bool                // the user's desktop session runs
    ghost var steps: seq<Operation>  // the operations begun, in their order

    /** Write-ahead, after every step of every call. */
    ghost predicate Valid()
      reads this`record, this`system
    {
      match record
      case None => system == UNDONE
      case Some(r) =>
        && ValidRecord(r) && Announced(system, r.ops)
        && (r.phase in {RolledBack, RemoveReady} ==> system == UNDONE)
    }

    /** The helper runs without the journal having announced its start. */
    ghost predicate Stranded()
      reads this`record, this`system
    {
      record.Some? && system.active && record.value.ops.helperStart == NotStarted
    }

    constructor ()
      ensures Valid() && record == None && system == UNDONE && !Stranded()
    {
      record, system, power, smooth, session, steps := None, UNDONE, 0, false, false, [];
    }

    /**
     The machine restarts: an enabled helper is started, any other is not. The helper is
     stranded by it exactly between the enabling and the announcement of its start.
     */
    method Restart()
      requires Valid()
      modifies this`system
      ensures Valid() && system == old(system).(active := old(system).enabled)
      ensures Stranded() <==> old(Exposed())
    {
      system := system.(active := system.enabled);
    }

    /** Enabled, then the power fails before the start is announced: after the restart nothing resumes. */
    static method StrandingExample() returns (m: Maintenance)
      ensures m.Valid() && m.Stranded()
    {
      m := new Maintenance();
      m.record := Some(Record(Configuring, NONE_STARTED.(enrollment := Done, userConfigure := Done, reload := Done,
                                                         helperEnable := Done), Some(Configured), None));
      m.system := System(true, true, true, false);
      assert m.Valid() && !m.Stranded();
      m.Restart();
    }

    /** A check of the account, the session, the files or idleness that may raise. */
    method Check() returns (ok: bool)
      ensures smooth ==> ok
    {
      var refuses: bool := *;
      ok := smooth || !refuses;
    }

    /** `_save` */
    method Save(r: Record) returns (o: Outcome)
      requires Valid() && ValidRecord(r) && Announced(system, r.ops)
      requires r.phase in {RolledBack, RemoveReady} ==> system == UNDONE
      requires system.active && r.ops.helperStart == NotStarted ==> Stranded()
      modifies this`record, this`power
      ensures Valid() && o in {Ok(r.phase), Raised, Dead}
      ensures !old(Stranded()) ==> !Stranded()
      ensures record == if o == Ok(r.phase) then Some(r) else old(record)
      ensures (o == Ok(r.phase)) == (old(power) > 0) && old(power) <= power + 1
    {
      if power == 0 {
        var dead: bool := *;
        return if dead then Dead else Raised;
      }
      power := power - 1;
      record := Some(r);
      return Ok(r.phase);
    }

    /** The operation itself, which the journal has announced; when it fails it may have taken effect. */
    method Operate(op: Operation) returns (o: Outcome)
      requires Valid() && record.Some? && Owned(system, record.value.ops)
      requires record.value.ops == Put(record.value.ops, op, Pending)
      requires record.value.phase !in {RolledBack, RemoveReady}
      modifies this`system, this`steps
      ensures Valid() && Owned(system, record.value.ops) && o in {Ok(record.value.phase), Raised, Dead}
      ensures !Stranded()
      ensures system == Effect(old(system), op) || (system == old(system) && o in {Raised, Dead})
      ensures smooth ==> o == Ok(record.value.phase)
      ensures steps == old(steps) + [op]
    {
      var works: bool, fails: bool, dead: bool := *, *, *;
      EffectOwned(system, record.value.ops, op);
      steps := steps + [op];
      if works || smooth { system := Effect(system, op); }
      if smooth || (works && !fails) { return Ok(record.value.phase); }
      return if dead then Dead else Raised;
    }

    /** `_step`; the journal in memory runs ahead of the saved one when a save fails. */
    method Step(r: Record, op: Operation) returns (o: Outcome, next: Record)
      requires Valid() && record == Some(r) && Owned(system, r.ops)
      requires r.phase in {Configuring, RollbackPending, Removing}
      modifies this`record, this`system, this`power, this`steps
      ensures Valid() && o in {Ok(r.phase), Raised, Dead}
      ensures !Stranded()
      ensures o == Ok(r.phase) ==> record == Some(next) && Stepped(next, r, op) && system == Effect(old(system), op)
      ensures record.Some? && Owned(system, record.value.ops) && Within(record.value, r, op)
      ensures ValidRecord(next) && Owned(system, next.ops) && Within(next, r, op)
      ensures smooth && old(power) >= 2 ==> o == Ok(r.phase) && old(power) <= power + 2
      ensures steps in [old(steps), old(steps) + [op]] && (o == Ok(r.phase) ==> steps == old(steps) + [op])
    {
      PutOwned(system, r.ops, op, Pending);
      next := r.(ops := Put(r.ops, op, Pending));
      o := Save(next);
      if o != Ok(r.phase) { return; }
      o := Operate(op);
      if o != Ok(r.phase) { return; }
      o, next := Conclude(r, op);
    }

    /** The end of a step that worked. */
    method Conclude(r: Record, op: Operation) returns (o: Outcome, next: Record)
      requires Valid() && ValidRecord(r) && r.phase in {Configuring, RollbackPending, Removing}
      requires record == Some(r.(ops := Put(r.ops, op, Pending))) && Owned(system, record.value.ops)
      modifies this`record, this`power
      ensures Valid() && o in {Ok(r.phase), Raised, Dead}
      ensures !Stranded()
      ensures record == if o == Ok(r.phase) then Some(next) else old(record)
      ensures Stepped(next, r, op) && ValidRecord(next) && Owned(system, next.ops)
      ensures old(power) >= 1 ==> o == Ok(r.phase) && old(power) <= power + 1
    {
      var changed: bool := *;
      PutTwice(system, r.ops, op);
      next := Receive(r.(ops := Put(r.ops, op, Done)), op, if changed then Restored else NotConfigured);
      o := Save(next);
    }

    /** The user's part of the transaction returns a receipt. */
    static function Receive(r: Record, op: Operation, restored: Receipt): Record {
      if op == UserConfigure then r.(userSetup := Some(Configured))
      else if op == UserRestore then r.(userRestore := Some(restored))
      else r
    }

    /** The step is done, with its receipt. */
    static predicate Stepped(now: Record, r: Record, op: Operation) {
      var done := r.(ops := Put(r.ops, op, Done));
      now in [Receive(done, op, Restored), Receive(done, op, NotConfigured)]
    }

    /** The step is not begun, pending or done; everything else is as in `r`. */
    static predicate Within(now: Record, r: Record, op: Operation) {
      now == r || now == r.(ops := Put(r.ops, op, Pending)) || Stepped(now, r, op)
    }

    /** `_guard_service_ownership` */
    predicate Guarded(r: Record)
      reads this`system
    {
      (system.enabled ==> r.ops.helperEnable != NotStarted) && (system.active ==> r.ops.helperStart != NotStarted)
    }

    /** The guard refuses exactly a helper that a restart started before its start was announced. */
    lemma GuardRefuses()
      requires Valid() && record.Some?
      ensures !Guarded(record.value) <==> Stranded()
      ensures Stranded() ==> system.enabled
    {
    }

    /** A step of the rollback, for an operation that was started. */
    method UndoIf(r: Record, op: Operation, started: Progress) returns (o: Outcome, next: Record)
      requires Valid() && record == Some(r) && Owned(system, r.ops) && r.phase == RollbackPending
      requires op in {UserRestore, HelperStop, HelperDisable, EnrollmentRestore} && started == Undoes(r.ops, op)
      modifies this`record, this`system, this`power, this`steps
      ensures Valid() && o in {Ok(RollbackPending), Raised, Dead}
      ensures record.Some? && record.value.phase == RollbackPending
      ensures !Stranded()
      ensures AfterRollback(record.value.ops) == AfterRollback(r.ops) && Started(record.value.ops) == Started(r.ops)
      ensures o == Ok(RollbackPending) ==>
                && record == Some(next) && Owned(system, next.ops)
                && system == (if started == NotStarted then old(system) else Effect(old(system), op))
                && next.ops == (if started == NotStarted then r.ops else Put(r.ops, op, Done))
      ensures smooth && old(power) >= 2 ==> o == Ok(RollbackPending) && old(power) <= power + 2
      ensures old(steps) <= steps && (o == Ok(RollbackPending) ==> steps == old(steps) + If(started, op))
    {
      if started == NotStarted { return Ok(RollbackPending), r; }
      o, next := Step(r, op);
    }

    /** The operation that `op` undoes. */
    static function Undoes(ops: Operations, op: Operation): Progress {
      match op
      case UserRestore => ops.userConfigure
      case HelperStop => ops.helperStart
      case HelperDisable => ops.helperEnable
      case _ => ops.enrollment
    }

    static function Started(ops: Operations): (Progress, Progress, Progress, Progress) {
      (ops.enrollment, ops.userConfigure, ops.helperEnable, ops.helperStart)
    }

    /**
     `_rollback`: it undoes whatever was started and says so. Resumed after any failure it
     ends in the same operations as uninterrupted, and the same system. It does end so when
     it is smooth and uninterrupted and the helper is not stranded.
     */
    method Rollback(r: Record) returns (o: Outcome)
      requires Valid() && record.Some? && ValidRecord(r) && Announced(system, r.ops)
      requires system.active && r.ops.helperStart == NotStarted ==> Stranded()
      modifies this`record, this`system, this`power, this`steps
      ensures Valid() && o in {Ok(RolledBack), Raised, Dead}
      ensures !old(Stranded()) ==> !Stranded()
      ensures record == old(record) || (record.Some? && AfterRollback(record.value.ops) == AfterRollback(r.ops)
                                        && record.value.phase in {RollbackPending, RolledBack})
      ensures o == Ok(RolledBack) ==> record.value.phase == RolledBack && record.value.ops == AfterRollback(r.ops)
                                      && system == UNDONE
      ensures old(Stranded()) && r.ops.helperStart == NotStarted ==>
                Stranded() && system == old(system) && o in {Raised, Dead}
      ensures smooth && old(power) >= 10 && !old(Stranded()) ==> o == Ok(RolledBack)
      ensures o == Ok(RolledBack) ==> steps == old(steps) + Undoing(r.ops)
    {
      var now := r.(phase := RollbackPending);
      o := Save(now);
      if o != Ok(RollbackPending) { return; }
      var ok := Check();
      if !ok || !Guarded(now) { return Raised; }
      o := Undo(now);
    }

    /** The steps of `_rollback`, in their order. */
    method Undo(r: Record) returns (o: Outcome)
      requires Valid() && record == Some(r) && Owned(system, r.ops) && r.phase == RollbackPending
      modifies this`record, this`system, this`power, this`steps
      ensures Valid() && o in {Ok(RolledBack), Raised, Dead}
      ensures !Stranded()
      ensures record.Some? && AfterRollback(record.value.ops) == AfterRollback(r.ops)
              && record.value.phase in {RollbackPending, RolledBack}
      ensures o == Ok(RolledBack) ==> record.value.phase == RolledBack && record.value.ops == AfterRollback(r.ops)
                                      && system == UNDONE
      ensures smooth && old(power) >= 9 ==> o == Ok(RolledBack)
      ensures o == Ok(RolledBack) ==> steps == old(steps) + Undoing(r.ops)
    {
      var now;
      o, now := UndoIf(r, UserRestore, r.ops.userConfigure);
      if o != Ok(RollbackPending) { return; }
      o, now := UndoIf(now, HelperStop, r.ops.helperStart);
      if o != Ok(RollbackPending) { return; }
      o := UndoRest(now);
    }

    /** The rest of them, once the helper is stopped. */
    method UndoRest(r: Record) returns (o: Outcome)
      requires Valid() && record == Some(r) && Owned(system, r.ops) && r.phase == RollbackPending
      requires !system.userConfig && (r.ops.userConfigure != NotStarted ==> r.ops.userRestore == Done)
      requires !system.active && (r.ops.helperStart != NotStarted ==> r.ops.helperStop == Done)
      modifies this`record, this`system, this`power, this`steps
      ensures Valid() && o in {Ok(RolledBack), Raised, Dead}
      ensures !Stranded()
      ensures record.Some? && AfterRollback(record.value.ops) == AfterRollback(r.ops)
              && record.value.phase in {RollbackPending, RolledBack}
      ensures o == Ok(RolledBack) ==> record.value.phase == RolledBack && record.value.ops == AfterRollback(r.ops)
                                      && system == UNDONE
      ensures smooth && old(power) >= 5 ==> o == Ok(RolledBack)
      ensures o == Ok(RolledBack) ==>
                steps == old(steps) + (If(r.ops.helperEnable, HelperDisable) + If(r.ops.enrollment, EnrollmentRestore))
    {
      var ok := Check();
      if !ok { return Raised; }
      var now;
      o, now := UndoIf(r, HelperDisable, r.ops.helperEnable);
      if o != Ok(RollbackPending) { return; }
      o, now := UndoIf(now, EnrollmentRestore, r.ops.enrollment);
      if o != Ok(RollbackPending) { return; }
      o := Save(now.(phase := RolledBack));
    }

    /** The steps of `configure`, in their order. */
    method Setup(r: Record) returns (o: Outcome, now: Record)
      requires Valid() && record == Some(r) && Owned(system, r.ops) && r.phase == Configuring
      modifies this`record, this`system, this`power, this`steps
      ensures Valid() && record.Some? && o in {Ok(AwaitingDesktopRestart), Raised, Dead}
      ensures !Stranded()
      ensures o == Ok(AwaitingDesktopRestart) ==>
                system == System(true, true, true, true) && record.value.phase == AwaitingDesktopRestart
      ensures ValidRecord(now) && Owned(system, now.ops)
      ensures smooth && old(power) >= 11 ==> o == Ok(AwaitingDesktopRestart)
      ensures o == Ok(AwaitingDesktopRestart) ==> steps == old(steps) + SETUP
    {
      o, now := Step(r, Enrollment);
      if o != Ok(Configuring) { return; }
      o, now := Step(now, UserConfigure);
      if o != Ok(Configuring) { return; }
      o, now := Step(now, Reload);
      if o != Ok(Configuring) { return; }
      o, now := SetupHelper(now);
    }

    /** The last of them: the helper is enabled, then started. */
    method SetupHelper(r: Record) returns (o: Outcome, now: Record)
      requires Valid() && record == Some(r) && Owned(system, r.ops) && r.phase == Configuring
      requires system.enrollment && system.userConfig && r.userSetup.Some?
      requires r.ops.enrollment == Done && r.ops.userConfigure == Done && r.ops.reload == Done
      modifies this`record, this`system, this`power, this`steps
      ensures Valid() && record.Some? && o in {Ok(AwaitingDesktopRestart), Raised, Dead}
      ensures !Stranded()
      ensures o == Ok(AwaitingDesktopRestart) ==>
                system == System(true, true, true, true) && record.value.phase == AwaitingDesktopRestart
      ensures ValidRecord(now) && Owned(system, now.ops)
      ensures smooth && old(power) >= 5 ==> o == Ok(AwaitingDesktopRestart)
      ensures o == Ok(AwaitingDesktopRestart) ==> steps == old(steps) + [HelperEnable, HelperStart]
    {
      o, now := Step(r, HelperEnable);
      if o != Ok(Configuring) { return; }
      o, now := Step(now, HelperStart);
      if o != Ok(Configuring) { return; }
      var ok := Check();
      if !ok { return Raised, now; }
      var next := now.(phase := AwaitingDesktopRestart);
      o := Save(next);
      now := next;
    }

    /** A removal has begun. */
    predicate Removed()
      reads this`record
    {
      record.Some? && record.value.phase in {Removing, PendingDesktopTransition, RemoveReady}
    }

    /** A rollback has begun and not ended. */
    predicate Due()
      reads this`record
    {
      record.Some? && record.value.phase == RollbackPending
    }

    /**
     `configure`: it ends configured, or reverted with everything undone, or says that
     reverting is still to be done; otherwise it had no effect. A smooth and uninterrupted
     call configures, or reverts what is still due, or refuses a removal that has begun.
     */
    method Configure() returns (o: Outcome)
      requires Valid()
      modifies this`record, this`system, this`power, this`steps
      ensures Valid() && o in {Ok(AwaitingDesktopRestart), Raised, Dead, Reverted, Unreverted}
      ensures !old(Stranded()) ==> !Stranded()
      ensures o == Ok(AwaitingDesktopRestart) ==>
                system == System(true, true, true, true) && record.Some? && record.value.phase == AwaitingDesktopRestart
      ensures o == Reverted ==> system == UNDONE && record.Some? && record.value.phase == RolledBack
      ensures o == Raised ==> system == old(system)
      ensures old(Due()) ==>
                record.Some? && AfterRollback(record.value.ops) == AfterRollback(old(record).value.ops)
      ensures old(Stranded()) ==> Stranded() && system == old(system) && o !in {Ok(AwaitingDesktopRestart), Reverted}
      ensures smooth && old(power) >= UNINTERRUPTED && !old(Stranded()) ==>
                o == if old(Removed()) then Raised else if old(Due()) then Reverted else Ok(AwaitingDesktopRestart)
      ensures o == Ok(AwaitingDesktopRestart) ==> steps == old(steps) + SETUP
      ensures o == Reverted && old(Due()) ==> steps == old(steps) + Undoing(old(record).value.ops)
    {
      var ok := Check();
      if !ok { return Raised; }
      if record.None? {
        o := Save(Record(Prepared, NONE_STARTED, None, None));
        if o != Ok(Prepared) { return; }
      }
      var r := record.value;
      ok := Check();
      if !ok || Removed() { return Raised; }
      if r.phase == RollbackPending {
        o := Revert(r);
        return;
      }
      if !Guarded(r) { return Raised; }
      if r.phase == RolledBack { r := r.(ops := NONE_STARTED, userSetup := None, userRestore := None); }
      r := r.(phase := Configuring);
      o := Save(r);
      if o != Ok(Configuring) { return; }
      o, r := Setup(r);
      if o != Raised { return; }
      power := *;
      o := Revert(r);
    }

    /** A rollback on behalf of `configure`, which raises in any case. */
    method Revert(r: Record) returns (o: Outcome)
      requires Valid() && record.Some? && ValidRecord(r) && Announced(system, r.ops)
      requires system.active && r.ops.helperStart == NotStarted ==> Stranded()
      modifies this`record, this`system, this`power, this`steps
      ensures Valid() && o in {Reverted, Unreverted, Dead}
      ensures !old(Stranded()) ==> !Stranded()
      ensures record == old(record) || (record.Some? && AfterRollback(record.value.ops) == AfterRollback(r.ops))
      ensures o == Reverted ==> system == UNDONE && record.Some? && record.value.phase == RolledBack
      ensures old(Stranded()) && r.ops.helperStart == NotStarted ==>
                Stranded() && system == old(system) && o != Reverted
      ensures smooth && old(power) >= 10 && !old(Stranded()) ==> o == Reverted
      ensures o == Reverted ==> steps == old(steps) + Undoing(r.ops)
    {
      o := Rollback(r);
      return match o case Ok(_) => Reverted case Dead => Dead case _ => Unreverted;
    }

    /** The user's configuration is undone, and the rest waits for the session to end. */
    predicate Waiting()
      reads this`record, this`system, this`session
    {
      record.Some? && record.value.phase == PendingDesktopTransition && !system.userConfig && session
    }

    /**
     `prepare_remove`: it ends with everything undone, or waits for the desktop session to
     end, or can be called again; resumed it ends as uninterrupted. A smooth and
     uninterrupted call does one of the first two, as the session runs or not.
     */
    method PrepareRemove() returns (o: Outcome)
      requires Valid()
      modifies this`record, this`system, this`power, this`steps
      ensures Valid() && o in {Ok(RemoveReady), Ok(PendingDesktopTransition), Absent, Raised, Dead}
      ensures !old(Stranded()) ==> !Stranded()
      ensures o == Absent ==> record == old(record) == None && system == UNDONE
      ensures old(record).Some? ==>
                record.Some? && AfterRemoval(record.value.ops) == AfterRemoval(old(record).value.ops)
      ensures o == Ok(RemoveReady) ==> && record.Some? && record.value.phase == RemoveReady && system == UNDONE
                                       && record.value.ops == AfterRemoval(record.value.ops)
      ensures old(Stranded()) ==> Stranded() && system == old(system) && o in {Raised, Dead}
      ensures smooth && old(power) >= UNINTERRUPTED && !old(Stranded()) ==>
                o == if old(record).None? then Absent
                     else if old(record).value.phase == RemoveReady || !session then Ok(RemoveReady)
                     else Ok(PendingDesktopTransition)
      ensures o == Ok(RemoveReady) ==>
                old(record).Some?
                && steps == old(steps) + if old(record).value.phase == RemoveReady then [] else REMOVAL
      ensures o == Ok(PendingDesktopTransition) ==> Waiting() && steps == old(steps) + [UserRestore]
    {
      if record.None? { return Absent; }
      var ok := Check();
      var r := record.value;
      if !ok || !Guarded(r) { return Raised; }
      if r.phase == RemoveReady { return Ok(RemoveReady); }
      r := r.(phase := Removing);
      o := Save(r);
      if o != Ok(Removing) { return; }
      o := Remove(r);
    }

    /** A step of the removal. */
    method RemoveStep(r: Record, op: Operation) returns (o: Outcome, next: Record)
      requires Valid() && record == Some(r) && Owned(system, r.ops) && r.phase == Removing
      requires op in {UserRestore, HelperStop, HelperDisable, EnrollmentRestore}
      modifies this`record, this`system, this`power, this`steps
      ensures Valid() && o in {Ok(Removing), Raised, Dead}
      ensures !Stranded()
      ensures record.Some? && AfterRemoval(record.value.ops) == AfterRemoval(r.ops)
      ensures o == Ok(Removing) ==>
                && record == Some(next) && next.phase == Removing && Owned(system, next.ops) && ValidRecord(next)
                && system == Effect(old(system), op) && next.ops == Put(r.ops, op, Done)
                && (if op == UserRestore then next.userRestore.Some? else next.userRestore == r.userRestore)
      ensures smooth && old(power) >= 2 ==> o == Ok(Removing) && old(power) <= power + 2
      ensures old(steps) <= steps && (o == Ok(Removing) ==> steps == old(steps) + [op])
    {
      o, next := Step(r, op);
    }

    /** The steps of `prepare_remove`, in their order. */
    method Remove(r: Record) returns (o: Outcome)
      requires Valid() && record == Some(r) && Owned(system, r.ops) && r.phase == Removing
      modifies this`record, this`system, this`power, this`steps
      ensures Valid() && o in {Ok(RemoveReady), Ok(PendingDesktopTransition), Raised, Dead}
      ensures !Stranded()
      ensures record.Some? && AfterRemoval(record.value.ops) == AfterRemoval(r.ops)
      ensures o == Ok(RemoveReady) ==>
                record.value.phase == RemoveReady && system == UNDONE && record.value.ops == AfterRemoval(r.ops)
      ensures smooth && old(power) >= 9 ==>
                o == if session then Ok(PendingDesktopTransition) else Ok(RemoveReady)
      ensures o == Ok(RemoveReady) ==> steps == old(steps) + REMOVAL
      ensures o == Ok(PendingDesktopTransition) ==> Waiting() && steps == old(steps) + [UserRestore]
    {
      var now;
      o, now := RemoveStep(r, UserRestore);
      if o != Ok(Removing) { return; }
      if session {
        o := Save(now.(phase := PendingDesktopTransition));
        return;
      }
      o := RemoveRest(now);
    }

    /** The rest of them, outside the desktop session. */
    method RemoveRest(r: Record) returns (o: Outcome)
      requires Valid() && record == Some(r) && Owned(system, r.ops) && r.phase == Removing
      requires !system.userConfig && r.ops.userRestore == Done && r.userRestore.Some?
      modifies this`record, this`system, this`power, this`steps
      ensures Valid() && o in {Ok(RemoveReady), Raised, Dead}
      ensures !Stranded()
      ensures record.Some? && AfterRemoval(record.value.ops) == AfterRemoval(r.ops)
      ensures o == Ok(RemoveReady) ==>
                record.value.phase == RemoveReady && system == UNDONE && record.value.ops == AfterRemoval(r.ops)
      ensures smooth && old(power) >= 7 ==> o == Ok(RemoveReady)
      ensures o == Ok(RemoveReady) ==> steps == old(steps) + REMOVAL[1..]
    {
      var now;
      o, now := RemoveStep(r, HelperStop);
      if o != Ok(Removing) { return; }
      var ok := Check();
      if !ok { return Raised; }
      o, now := RemoveStep(now, HelperDisable);
      if o != Ok(Removing) { return; }
      o, now := RemoveStep(now, EnrollmentRestore);
      if o != Ok(Removing) { return; }
      o := Save(now.(phase := RemoveReady));
    }

    /** The helper is enabled, but its start is not announced yet. */
    predicate Exposed()
      reads this`record, this`system
    {
      record.Some? && system.enabled && record.value.ops.helperStart == NotStarted
    }

    /**
     Every run: any calls, failing anywhere, with restarts in between, keep the journal
     ahead of its effects; and where no restart finds the helper enabled with its start
     unannounced (`lucky`), the guard never refuses.
     */
    method AnyHistory(calls: nat, lucky: bool)
      requires Valid() && !Stranded()
      modifies this
      ensures Valid() && (lucky ==> !Stranded())
      ensures record.Some? && record.value.phase in {RolledBack, RemoveReady} ==> system == UNDONE
    {
      for i := 0 to calls
        invariant Valid() && (lucky ==> !Stranded())
      {
        power, smooth, session := *, *, *;
        var which: int := *;
        if which == 0 && !(lucky && Exposed()) { Restart(); }
        else if which == 1 { var _ := Configure(); }
        else { var _ := PrepareRemove(); }
      }
    }
  }
}
