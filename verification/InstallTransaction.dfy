/**
 The multi-file install transaction (packaging_tools/install_transaction.py): five fixed
 targets, one journal, first originals kept for good.

 A call has the `power` for some number of durable steps and dies before the next one
 (`Crashed`, which also covers an I/O error that ends the call); every call starts by
 reading the durable state again. Unless `quiet`, anybody may edit the targets between
 any two steps.
 */
module InstallTransaction {
  import opened Bytes

  // --------------------------------------------------------------- data model

  datatype Target = Enrollment | RescueBinding | StagedBusPolicy | StagedHelperUnit | StagedRescueUnit

  /** The targets in the order in which their identifiers sort. */
  function Order(): seq<Target> {
    [Enrollment, RescueBinding, StagedBusPolicy, StagedHelperUnit, StagedRescueUnit]
  }

  /** Every target once. */
  predicate Complete(order: seq<Target>) {
    |order| == 5 && (forall t :: t in order) && forall i, j :: 0 <= i < j < |order| ==> order[i] != order[j]
  }

  lemma OrderCovers()
    ensures Complete(Order())
  {
    forall t ensures t in Order() {
      match t
      case Enrollment => assert Order()[0] == t;
      case RescueBinding => assert Order()[1] == t;
      case StagedBusPolicy => assert Order()[2] == t;
      case StagedHelperUnit => assert Order()[3] == t;
      case StagedRescueUnit => assert Order()[4] == t;
    }
  }

  /** SHA-256 stands for an injective digest. */
  datatype Digest = Sha256(of: seq<byte>)

  datatype Snapshot = Snapshot(data: seq<byte>, mode: nat, uid: nat, gid: nat)

  datatype Identity = Identity(sha256: Digest, mode: nat, uid: nat, gid: nat)

  type File = Option<Snapshot>

  type Files = map<Target, Snapshot>

  datatype Change = Change(data: Option<seq<byte>>, mode: nat, gid: Option<nat>, expected: Option<Identity>)

  datatype Entry = Entry(before: File, applied: File, expectedBefore: Option<Identity>)

  datatype Phase = Prepared | Applied | Restoring | Restored | InConflict

  datatype Intent = ToApply | ToRestore

  datatype Record = Record(phase: Phase, intent: Intent, targets: map<Target, Entry>, conflicts: set<Target>)

  const ROOT: nat := 0
  const MAX_FILE_BYTES := 131072
  const MAX_ID := 0xFFFF_FFFE

  /** Two journal writes and five targets: with this much power no call dies. */
  const UNINTERRUPTED := 7

  function Get(files: Files, t: Target): File {
    if t in files then Some(files[t]) else None
  }

  function IdentityOf(f: File): Option<Identity> {
    if f.None? then None
    else Some(Identity(Sha256(f.value.data), f.value.mode, f.value.uid, f.value.gid))
  }

  /** At most 0o777, neither group- nor world-writable. */
  predicate ValidMode(mode: nat) {
    mode <= 0x1FF && mode / 16 % 2 == 0 && mode / 2 % 2 == 0
  }

  predicate ValidIdentity(i: Identity) {
    ValidMode(i.mode) && i.uid == ROOT && i.gid <= MAX_ID
  }

  predicate ValidSnapshot(f: File) {
    f.Some? ==> ValidIdentity(IdentityOf(f).value) && |f.value.data| <= MAX_FILE_BYTES
  }

  predicate ValidChange(c: Change) {
    && ValidMode(c.mode) && (c.data.Some? ==> |c.data.value| <= MAX_FILE_BYTES)
    && (c.gid.Some? ==> c.gid.value <= MAX_ID)
    && (c.expected.Some? ==> ValidIdentity(c.expected.value))
  }

  function AppliedBy(c: Change): File {
    if c.data.None? then None
    else Some(Snapshot(c.data.value, c.mode, ROOT, if c.gid.Some? then c.gid.value else ROOT))
  }

  predicate ValidEntry(e: Entry) {
    && ValidSnapshot(e.before) && ValidSnapshot(e.applied)
    && (e.expectedBefore.Some? ==> ValidIdentity(e.expectedBefore.value))
    && IdentityOf(e.before) == e.expectedBefore
  }

  /** `_validate_record` */
  predicate ValidRecord(r: Record) {
    && r.targets != map[]
    && (r.phase in {Prepared, Applied} ==> r.intent == ToApply)
    && (r.phase in {Restoring, Restored} ==> r.intent == ToRestore)
    && r.conflicts <= r.targets.Keys && (r.conflicts != {} <==> r.phase == InConflict)
    && forall t :: t in r.targets ==> ValidEntry(r.targets[t])
  }

  predicate Recognised(f: File, e: Entry) {
    f == e.before || f == e.applied
  }

  function Desired(e: Entry, intent: Intent): File {
    if intent == ToApply then e.applied else e.before
  }

  /** One durable change of a target: what was there and what replaced it. */
  datatype Replacement = Replacement(target: Target, was: File, now: File)

  /** A change the journal gives authority for. */
  predicate Authorised(w: Replacement, targets: map<Target, Entry>) {
    w.target in targets && Recognised(w.was, targets[w.target]) && Recognised(w.now, targets[w.target])
  }

  // ---------------------------------------------------------------- outcomes

  datatype Stage = AtScan | AtWrite

  datatype Reason = Untrusted | NothingToResume | PlanChanged | RestoreUnfinished | InvalidChanges

  datatype Outcome =
    | Done(phase: Phase)
    | Absent
    | Conflict(targets: set<Target>, stage: Stage)
    | Refused(reason: Reason)
    | Crashed

  datatype WriteOutcome = Written | WriteConflict | WriteUntrusted | WriteCrashed

  /** The invariants of the transaction. */
  datatype Law = Writes | Values

  class InstallFileTransaction {
    const quiet: bool                // nobody else edits the targets
    ghost const origin: Files        // the targets before the first call ever
    var files: Files
    var journal: Option<Record>
    var power: nat                   // durable steps left before the process dies
    ghost var log: seq<Replacement>  // every durable change this code made to a target
    ghost var seen: map<Target, File>  // what each target held when it was last read

    /** Nothing was written before a valid journal existed, and every write replaced a recorded value by one. */
    ghost predicate Journaled()
      reads this`journal, this`log
    {
      match journal
      case None => log == []
      case Some(r) => ValidRecord(r) && forall w :: w in log ==> Authorised(w, r.targets)
    }

    /**
     Without outside edits each target is at its first original or at its applied value,
     all of them as the journal's phase says.
     */
    ghost predicate Accounted()
      reads this`journal, this`files
    {
      quiet ==> if journal.None? then files == origin else Consistent(journal.value)
    }

    ghost predicate Kept(law: Law)
      reads this`journal, this`files, this`log
    {
      match law
      case Writes => Journaled()
      case Values => Accounted()
    }

    /** What holds after every durable step of every call, whatever crashed before. */
    ghost predicate Valid()
      reads this`journal, this`files, this`log
    {
      forall law :: Kept(law)
    }

    lemma Open()
      requires Valid()
      ensures Journaled() && Accounted()
    {
      assert Kept(Writes) && Kept(Values);
    }

    lemma Close()
      requires Journaled() && Accounted()
      ensures Valid()
    {
      forall law ensures Kept(law) {
        match law { case Writes => case Values => }
      }
    }

    ghost predicate Consistent(r: Record)
      reads this`files
    {
      && r.phase != InConflict
      && (forall t :: t in r.targets ==>
            r.targets[t].before == Get(origin, t) && Recognised(Get(files, t), r.targets[t]))
      && (forall t :: t !in r.targets ==> Get(files, t) == Get(origin, t))
      && (r.phase == Applied ==> AllAt(r, ToApply))
      && (r.phase == Restored ==> AllAt(r, ToRestore))
    }

    ghost predicate AllAt(r: Record, intent: Intent)
      reads this`files
    {
      forall t :: t in r.targets ==> Get(files, t) == Desired(r.targets[t], intent)
    }

    /** `before`, `applied` and `expected_before` never change once journaled. */
    twostate predicate PlanKept()
      reads this`journal
    {
      old(journal).Some? ==> journal.Some? && journal.value.targets == old(journal).value.targets
    }

    constructor (files: Files, quiet: bool)
      ensures Valid() && this.quiet == quiet && origin == files && this.files == files && journal == None
    {
      this.quiet, this.origin, this.files, this.journal, this.log, this.power := quiet, files, files, None, [], 0;
      seen := map[];
      new;
      Close();
    }

    method Step() returns (alive: bool)
      modifies this`power
      ensures alive <==> old(power) > 0
      ensures power == if alive then old(power) - 1 else 0
    {
      alive := power > 0;
      if alive { power := power - 1; }
    }

    method Outside()
      modifies this`files
      ensures (quiet ==> files == old(files)) && (old(Valid()) ==> Valid())
    {
      ghost var valid := Valid();
      if valid { Open(); }
      if !quiet { files := *; }
      if valid { Close(); }
    }

    /** `_read`: an untrusted file is refused, an absent one is None. */
    method Read(t: Target) returns (trusted: bool, f: File)
      modifies this`seen
      ensures seen == old(seen)[t := f] && f == Get(files, t) && trusted == ValidSnapshot(f)
    {
      f := Get(files, t);
      seen := seen[t := f];
      trusted := ValidSnapshot(f);
    }

    /** `_write` on a target; the last check and the replacement are one step. */
    method Write(t: Target, desired: File, expected: File) returns (w: WriteOutcome)
      requires Valid() && journal.Some? && journal.value.phase in {Prepared, Restoring}
      requires Authorised(Replacement(t, expected, desired), journal.value.targets)
      modifies this`files, this`log, this`power, this`seen
      ensures Valid() && old(power) <= power + 1
      ensures w == WriteCrashed ==> old(power) == 0
      ensures log == old(log) || (log == old(log) + [Replacement(t, expected, desired)] && w == Written)
      ensures w == Written ==> log == old(log) + if expected == desired then [] else [Replacement(t, expected, desired)]
      ensures w == WriteConflict ==> t in seen && seen[t] != expected
      ensures w == Written && quiet ==> Get(files, t) == desired
      ensures quiet ==> forall u :: Get(files, u) == Get(old(files), u)
                                    || (u == t && Get(old(files), t) == expected && Get(files, u) == desired)
      ensures quiet && Get(old(files), t) == expected && ValidSnapshot(expected)
              ==> w in {Written, WriteCrashed}
    {
      Outside();
      var trusted, current := Read(t);
      if !trusted { return WriteUntrusted; }
      if current != expected { return WriteConflict; }
      if current == desired { return Written; }
      var alive := Step();
      if !alive { return WriteCrashed; }
      if desired.Some? {
        Outside();
        trusted, current := Read(t);
        if !trusted { return WriteUntrusted; }
        if current != expected { return WriteConflict; }
      }
      Put(t, desired);
      return Written;
    }

    /** The file is replaced or removed, atomically. */
    method Put(t: Target, desired: File)
      requires Valid() && journal.Some? && journal.value.phase in {Prepared, Restoring}
      requires Authorised(Replacement(t, Get(files, t), desired), journal.value.targets)
      modifies this`files, this`log
      ensures Valid() && log == old(log) + [Replacement(t, Get(old(files), t), desired)]
      ensures forall u :: Get(files, u) == if u == t then desired else Get(old(files), u)
    {
      Open();
      log := log + [Replacement(t, Get(files, t), desired)];
      files := if desired.None? then files - {t} else files[t := desired.value];
      Close();
    }

    /** `_save`: the journal is replaced atomically, unless the call dies before. */
    method Save(r: Record) returns (saved: bool)
      requires Valid() && ValidRecord(r) && (quiet ==> Consistent(r))
      requires journal.Some? ==> journal.value.targets == r.targets
      modifies this`journal, this`power
      ensures Valid()
      ensures saved <==> old(power) > 0
      ensures old(power) <= power + 1
      ensures journal == if saved then Some(r) else old(journal)
    {
      Open();
      saved := Step();
      if saved {
        journal := Some(r);
        Close();
      }
    }

    /** `_states` */
    method States(r: Record) returns (trusted: bool, states: map<Target, File>)
      modifies this`files, this`seen
      ensures quiet ==> files == old(files)
      ensures trusted ==> states.Keys == r.targets.Keys && forall t :: t in states ==> ValidSnapshot(states[t])
      ensures trusted ==> forall t :: t in states ==> t in seen && seen[t] == states[t]
      ensures trusted && quiet ==> forall t :: t in states ==> states[t] == Get(files, t)
      ensures quiet && (forall t :: t in r.targets ==> ValidSnapshot(Get(files, t))) ==> trusted
    {
      states := map[];
      trusted := true;
      var order := Order();
      for i := 0 to |order|
        invariant quiet ==> files == old(files)
        invariant forall t :: t in states <==> t in r.targets && t in order[..i]
        invariant forall t :: t in states ==> ValidSnapshot(states[t]) && t in seen && seen[t] == states[t]
        invariant quiet ==> forall t :: t in states ==> states[t] == Get(files, t)
      {
        if order[i] in r.targets {
          Outside();
          var f;
          trusted, f := Read(order[i]);
          if !trusted { return; }
          states := states[order[i] := f];
        }
      }
      assert order[..|order|] == order;
      OrderCovers();
      assert states.Keys == r.targets.Keys;
    }

    /** The targets of a plan that the last reading found neither original nor applied. */
    ghost function Foreign(targets: map<Target, Entry>): set<Target>
      reads this`seen
    {
      set t | t in targets && !(t in seen && Recognised(seen[t], targets[t]))
    }

    /**
     `_run`. A conflict found by the scan changes no target; otherwise the targets are
     taken one by one from the scanned value to the desired one.
     */
    method Run(loaded: Record, intent: Intent) returns (r: Outcome)
      requires Valid() && ValidRecord(loaded)
      requires journal == None && quiet ==>
                 forall t :: t in loaded.targets ==> loaded.targets[t].before == Get(origin, t)
      requires journal.Some? ==> journal.value.targets == loaded.targets
      modifies this`files, this`journal, this`log, this`power, this`seen
      ensures Valid() && PlanKept() && old(log) <= log
      ensures journal == old(journal)
              || (journal.Some? && journal.value.targets == loaded.targets && journal.value.intent == intent)
      ensures r.Conflict? && r.stage == AtScan ==>
                && log == old(log) && r.targets == Foreign(loaded.targets)
                && journal == Some(Record(InConflict, intent, loaded.targets, r.targets))
      ensures quiet ==> r == Done(if intent == ToApply then Applied else Restored) || r == Crashed
      ensures r.Done? ==> && r.phase == (if intent == ToApply then Applied else Restored)
                          && journal == Some(Record(r.phase, intent, loaded.targets, {}))
      ensures r.Done? && quiet ==> AllAt(loaded, intent)
      ensures r.Done? || r.Conflict? || r == Refused(Untrusted) || r == Crashed
      ensures r == Crashed ==> old(power) < UNINTERRUPTED
    {
      var started, record, states := Begin(loaded, intent);
      if started != Done(record.phase) { return started; }
      OrderCovers();
      r := Carry(record, states, Order());
      if r != Done(record.phase) { return; }
      r := Finish(record, states);
    }

    /** The last journal entry of `_run`. */
    method Finish(record: Record, states: map<Target, File>) returns (r: Outcome)
      requires Valid() && ValidRecord(record) && journal == Some(record) && record.phase in {Prepared, Restoring}
      requires Scanned(record, states) && Halfway(record, states, Order()) && Complete(Order())
      modifies this`journal, this`power
      ensures Valid() && old(power) <= power + 1
      ensures if old(power) == 0 then r == Crashed && journal == old(journal)
              else r == Done(if record.intent == ToApply then Applied else Restored)
                   && journal == Some(Record(r.phase, record.intent, record.targets, {}))
                   && (quiet ==> AllAt(record, record.intent))
    {
      Open();
      assert quiet ==> AllAt(record, record.intent);
      var phase := if record.intent == ToApply then Applied else Restored;
      var saved := Save(record.(phase := phase));
      return if saved then Done(phase) else Crashed;
    }

    /** The scan of `_run`, and the journal entry that precedes any write. */
    method Begin(loaded: Record, intent: Intent) returns (r: Outcome, record: Record, states: map<Target, File>)
      requires Valid() && ValidRecord(loaded)
      requires journal == None && quiet ==>
                 forall t :: t in loaded.targets ==> loaded.targets[t].before == Get(origin, t)
      requires journal.Some? ==> journal.value.targets == loaded.targets
      modifies this`files, this`journal, this`power, this`seen
      ensures Valid() && PlanKept() && record.targets == loaded.targets && record.intent == intent
      ensures journal == old(journal)
              || (journal.Some? && journal.value.targets == loaded.targets && journal.value.intent == intent)
      ensures r in {Done(record.phase), Refused(Untrusted), Crashed} || (r.Conflict? && r.stage == AtScan)
      ensures r.Conflict? ==> r.targets == record.conflicts && journal == Some(record) && record.phase == InConflict
      ensures r.Conflict? || r == Done(record.phase) ==> record.conflicts == Foreign(record.targets)
      ensures r == Done(record.phase) ==>
                && ValidRecord(record) && journal == Some(record) && record.phase in {Prepared, Restoring}
                && Scanned(record, states) && Halfway(record, states, [])
      ensures quiet ==> r in {Done(record.phase), Crashed}
      ensures old(power) <= power + 1 && (r == Crashed ==> old(power) == 0)
    {
      Open();
      assert quiet ==> forall t :: t in loaded.targets ==>
               loaded.targets[t].before == Get(origin, t) && Recognised(Get(files, t), loaded.targets[t]);
      var trusted;
      record := loaded.(intent := intent);
      trusted, states := States(loaded);
      if !trusted { return Refused(Untrusted), record, states; }
      r, record := Announce(loaded, intent, states);
    }

    /** The journal entry itself. */
    method Announce(loaded: Record, intent: Intent, states: map<Target, File>) returns (r: Outcome, record: Record)
      requires Valid() && ValidRecord(loaded)
      requires journal == None && quiet ==>
                 forall t :: t in loaded.targets ==> loaded.targets[t].before == Get(origin, t)
      requires journal.Some? ==> journal.value.targets == loaded.targets
      requires states.Keys == loaded.targets.Keys
      requires forall t :: t in states ==> t in seen && seen[t] == states[t] && (quiet ==> states[t] == Get(files, t))
      requires quiet ==> forall t :: t in loaded.targets ==> Recognised(Get(files, t), loaded.targets[t])
      modifies this`journal, this`power
      ensures Valid() && record == Record(record.phase, intent, loaded.targets, Foreign(loaded.targets))
      ensures record.phase == if record.conflicts != {} then InConflict
                              else if intent == ToApply then Prepared else Restoring
      ensures ValidRecord(record) && (quiet ==> record.conflicts == {})
      ensures record.conflicts == {} ==> forall t :: t in states ==> Recognised(states[t], loaded.targets[t])
      ensures old(power) <= power + 1
      ensures if old(power) == 0 then r == Crashed && journal == old(journal)
              else journal == Some(record)
                   && r == if record.conflicts != {} then Conflict(record.conflicts, AtScan) else Done(record.phase)
    {
      Open();
      var targets := loaded.targets;
      var conflicts := set t | t in states && !Recognised(states[t], targets[t]);
      assert forall t :: t in states && t !in conflicts ==> Recognised(states[t], targets[t]);
      var phase := if conflicts != {} then InConflict else if intent == ToApply then Prepared else Restoring;
      record := Record(phase, intent, targets, conflicts);
      assert quiet ==> conflicts == {} && Consistent(record);
      var saved := Save(record);
      r := if !saved then Crashed else if conflicts != {} then Conflict(conflicts, AtScan) else Done(phase);
    }

    /** The replacements that take the targets, in this order, from the scanned values to the desired ones. */
    static ghost function Changes(r: Record, states: map<Target, File>, order: seq<Target>): seq<Replacement>
      requires r.targets.Keys <= states.Keys
    {
      if order == [] then []
      else Changes(r, states, order[..|order| - 1]) + Change1(r, states, order[|order| - 1])
    }

    static ghost function Change1(r: Record, states: map<Target, File>, t: Target): seq<Replacement>
      requires r.targets.Keys <= states.Keys
    {
      if t !in r.targets || states[t] == Desired(r.targets[t], r.intent) then []
      else [Replacement(t, states[t], Desired(r.targets[t], r.intent))]
    }

    static lemma ChangesNext(r: Record, states: map<Target, File>, order: seq<Target>, i: nat)
      requires r.targets.Keys <= states.Keys && i < |order|
      ensures Changes(r, states, order[..i + 1]) == Changes(r, states, order[..i]) + Change1(r, states, order[i])
    {
      assert order[..i + 1][..i] == order[..i];
    }

    /** Every scanned value is recorded. */
    static predicate Scanned(record: Record, states: map<Target, File>) {
      states.Keys == record.targets.Keys && forall t :: t in states ==> Recognised(states[t], record.targets[t])
    }

    /** Undisturbed, the targets in `done` are at their desired values and the others as scanned. */
    ghost predicate Halfway(record: Record, states: map<Target, File>, done: seq<Target>)
      requires states.Keys == record.targets.Keys
      reads this`files
    {
      quiet ==> forall t :: t in states ==>
        Get(files, t) == if t in done then Desired(record.targets[t], record.intent) else states[t]
    }

    /** The loop of `_run`: `Done` when every target was taken from its scanned value, with the phase unchanged. */
    method Carry(record: Record, states: map<Target, File>, order: seq<Target>) returns (r: Outcome)
      requires Valid() && ValidRecord(record) && journal == Some(record) && record.phase in {Prepared, Restoring}
      requires Complete(order) && Scanned(record, states) && Halfway(record, states, [])
      modifies this`files, this`journal, this`log, this`power, this`seen
      ensures Valid() && PlanKept() && old(log) <= log
      ensures journal.Some? && journal.value.intent == record.intent
      ensures r in {Done(record.phase), Refused(Untrusted), Crashed} || (r.Conflict? && r.stage == AtWrite)
      ensures r == Done(record.phase) ==> journal == Some(record) && log == old(log) + Changes(record, states, order)
      ensures quiet ==> r in {Done(record.phase), Crashed}
      ensures r == Done(record.phase) ==> Halfway(record, states, order)
      ensures r == Crashed ==> old(power) < 6
      ensures r == Done(record.phase) ==> old(power) <= power + 5
    {
      for i := 0 to |order|
        invariant Valid() && old(log) <= log && journal == Some(record)
        invariant old(power) <= power + i
        invariant log == old(log) + Changes(record, states, order[..i])
        invariant Halfway(record, states, order[..i])
      {
        r := Move(record, states, order, i);
        if r != Done(record.phase) { return; }
        ChangesNext(record, states, order, i);
      }
      assert order[..|order|] == order;
      return Done(record.phase);
    }

    /** One round of the loop. */
    method Move(record: Record, states: map<Target, File>, order: seq<Target>, i: nat) returns (r: Outcome)
      requires Valid() && ValidRecord(record) && journal == Some(record) && record.phase in {Prepared, Restoring}
      requires Complete(order) && i < |order| && Scanned(record, states) && Halfway(record, states, order[..i])
      modifies this`files, this`journal, this`log, this`power, this`seen
      ensures Valid() && PlanKept() && old(log) <= log
      ensures journal.Some? && journal.value.intent == record.intent
      ensures r in {Done(record.phase), Refused(Untrusted), Crashed} || (r.Conflict? && r.stage == AtWrite)
      ensures r == Done(record.phase) ==>
                journal == Some(record) && log == old(log) + Change1(record, states, order[i])
      ensures r.Conflict? ==>
                r.targets == {order[i]} && order[i] in states && order[i] in seen && seen[order[i]] != states[order[i]]
      ensures quiet ==> r in {Done(record.phase), Crashed}
      ensures r == Done(record.phase) ==> Halfway(record, states, order[..i + 1])
      ensures old(power) <= power + 1 || r.Conflict?
      ensures r == Crashed ==> old(power) < 2
    {
      var t := order[i];
      TakeNext(order, i);
      if t !in record.targets { return Done(record.phase); }
      var w := Write(t, Desired(record.targets[t], record.intent), states[t]);
      match w
      case Written => return Done(record.phase);
      case WriteCrashed => return Crashed;
      case WriteUntrusted => return Refused(Untrusted);
      case WriteConflict =>
        var saved := Save(record.(phase := InConflict, conflicts := {t}));
        return if saved then Conflict({t}, AtWrite) else Crashed;
    }

    static predicate Matches(changes: map<Target, Change>, targets: map<Target, Entry>) {
      && changes.Keys == targets.Keys
      && forall t :: t in changes ==> changes[t].expected == targets[t].expectedBefore
                                      && AppliedBy(changes[t]) == targets[t].applied
    }

    /** `_changes` */
    static predicate ValidChanges(changes: map<Target, Change>) {
      changes != map[] && forall t :: t in changes ==> ValidChange(changes[t])
    }

    /** No plan, or the recorded one. */
    static predicate Repeats(changes: Option<map<Target, Change>>, r: Record) {
      changes.None? || (ValidChanges(changes.value) && Matches(changes.value, r.targets))
    }

    /** Another plan than the recorded one. */
    static predicate Differs(changes: Option<map<Target, Change>>, r: Record) {
      changes.Some? && ValidChanges(changes.value) && !Matches(changes.value, r.targets)
    }

    /** The originals are trusted and as the caller expects. */
    ghost predicate Expected(changes: map<Target, Change>) {
      forall t :: t in changes ==>
        ValidSnapshot(Get(origin, t)) && IdentityOf(Get(origin, t)) == changes[t].expected
    }

    predicate UnfinishedRestore(r: Record) {
      r.intent == ToRestore && r.phase != Restored
    }

    /**
     `apply`: starts or repeats one plan, or resumes it. Without outside edits and
     without a crash a first plan whose expectations the originals meet, and the recorded one
     repeated or resumed, end with every target applied; it is refused exactly for an invalid
     plan, for lack of one, for a different one, and while a restoration is unfinished, in
     each case with no effect at all.
     */
    method Apply(changes: Option<map<Target, Change>>) returns (r: Outcome)
      requires Valid()
      modifies this`files, this`journal, this`log, this`power, this`seen
      ensures Valid() && PlanKept() && old(log) <= log
      ensures r == Refused(InvalidChanges) <==> changes.Some? && !ValidChanges(changes.value)
      ensures r.Refused? && r.reason != Untrusted ==> journal == old(journal) && log == old(log)
      ensures r.Conflict? && r.stage == AtScan ==> log == old(log)
      ensures r == Done(Applied) ==> journal.Some? && journal.value.phase == Applied
      ensures r == Done(Applied) && quiet ==> AllAt(journal.value, ToApply)
      ensures r == Done(Applied) && changes.Some? ==> Matches(changes.value, journal.value.targets)
      ensures journal == old(journal)
              || (journal.Some? && journal.value.intent == ToApply
                  && (changes.Some? ==> Matches(changes.value, journal.value.targets)))
      ensures r == Refused(NothingToResume) <==> old(journal) == None && changes == None
      ensures r == Refused(PlanChanged) <==> old(journal).Some? && Differs(changes, old(journal).value)
      ensures r == Refused(RestoreUnfinished) <==>
                old(journal).Some? && Repeats(changes, old(journal).value) && UnfinishedRestore(old(journal).value)
      ensures quiet && old(journal).Some? ==>
                (r in {Done(Applied), Crashed} <==>
                   Repeats(changes, old(journal).value) && !UnfinishedRestore(old(journal).value))
      ensures quiet && old(journal) == None ==>
                (r in {Done(Applied), Crashed} <==>
                   changes.Some? && ValidChanges(changes.value) && Expected(changes.value))
      ensures r == Crashed ==> old(power) < UNINTERRUPTED
      ensures old(journal) == None && changes.Some? && r.Conflict? && quiet ==>
                journal == None
                && r.targets == (set t | t in changes.value && IdentityOf(Get(origin, t)) != changes.value[t].expected)
    {
      Open();
      if changes.Some? && !ValidChanges(changes.value) { return Refused(InvalidChanges); }
      if journal.None? {
        if changes.None? { return Refused(NothingToResume); }
        var record;
        r, record := Plan(changes.value);
        if r != Done(Prepared) { return; }
        r := Run(record, ToApply);
      } else {
        var record := journal.value;
        if changes.Some? && !Matches(changes.value, record.targets) { return Refused(PlanChanged); }
        if UnfinishedRestore(record) { return Refused(RestoreUnfinished); }
        r := Run(record, ToApply);
      }
    }

    /** The targets that the last reading found other than the caller expects. */
    ghost function Unexpected(plan: map<Target, Change>): set<Target>
      reads this`seen
    {
      set t | t in plan && t in seen && IdentityOf(seen[t]) != plan[t].expected
    }

    /** The first apply: originals are taken as they are and must be as the caller expects. */
    method Plan(plan: map<Target, Change>) returns (r: Outcome, record: Record)
      requires Valid() && journal == None && plan != map[] && forall t :: t in plan ==> ValidChange(plan[t])
      modifies this`files, this`seen
      ensures Valid()
      ensures r in {Done(Prepared), Refused(Untrusted)} || (r.Conflict? && r.stage == AtScan)
      ensures r == Done(Prepared) ==> ValidRecord(record) && record.phase == Prepared && Matches(plan, record.targets)
      ensures r == Done(Prepared) && quiet ==>
                forall t :: t in record.targets ==> record.targets[t].before == Get(origin, t)
      ensures r.Conflict? ==> r.targets != {} && r.targets == Unexpected(plan)
      ensures r.Conflict? && quiet ==>
                r.targets == (set t | t in plan && IdentityOf(Get(origin, t)) != plan[t].expected)
      ensures r == Refused(Untrusted) && quiet ==> exists t :: t in plan && !ValidSnapshot(Get(origin, t))
    {
      Open();
      var empty := Entry(None, None, None);
      record := Record(Prepared, ToApply, map t | t in plan :: empty, {});
      var trusted, states := States(record);
      if !trusted { return Refused(Untrusted), record; }
      var conflicts := set t | t in states && IdentityOf(states[t]) != plan[t].expected;
      if conflicts != {} { return Conflict(conflicts, AtScan), record; }
      assert forall t :: t in plan ==> IdentityOf(states[t]) == plan[t].expected by {
        forall t | t in plan ensures IdentityOf(states[t]) == plan[t].expected { assert t !in conflicts; }
      }
      FirstIsValid(plan, states);
      return Done(Prepared), First(plan, states);
    }

    /** The first journal of a plan. */
    static function First(plan: map<Target, Change>, states: map<Target, File>): Record
      requires states.Keys == plan.Keys
    {
      Record(Prepared, ToApply, map t | t in plan :: Entry(states[t], AppliedBy(plan[t]), plan[t].expected), {})
    }

    static lemma FirstIsValid(plan: map<Target, Change>, states: map<Target, File>)
      requires plan != map[] && states.Keys == plan.Keys
      requires forall t :: t in plan ==> && ValidChange(plan[t]) && ValidSnapshot(states[t])
                                         && IdentityOf(states[t]) == plan[t].expected
      ensures ValidRecord(First(plan, states)) && Matches(plan, First(plan, states).targets)
    {
      var targets := First(plan, states).targets;
      forall t | t in targets ensures ValidEntry(targets[t]) {
        assert t in plan;
      }
      var t0 :| t0 in plan;
      assert t0 in targets;
    }

    /**
     `restore`: without outside edits an uninterrupted call puts every file back to what
     it was before the first call ever, whatever applies and restores crashed in between.
     */
    method Restore() returns (r: Outcome)
      requires Valid()
      modifies this`files, this`journal, this`log, this`power, this`seen
      ensures Valid() && PlanKept() && old(log) <= log
      ensures r == Absent <==> old(journal) == None
      ensures r == Absent ==> journal == None && log == old(log) && files == old(files)
      ensures r.Conflict? && r.stage == AtScan ==> log == old(log)
      ensures quiet ==> r in {Absent, Done(Restored), Crashed}
      ensures quiet && r in {Absent, Done(Restored)} ==> files == origin
      ensures r == Crashed ==> old(power) < UNINTERRUPTED
    {
      Open();
      if journal.None? { return Absent; }
      r := Run(journal.value, ToRestore);
      if quiet && r == Done(Restored) {
        Open();
        SameFiles(files, origin);
      }
    }

    /** `status`: the targets whose current value the journal does not account for. */
    method Status() returns (phase: Option<Phase>, current: set<Target>, trusted: bool)
      requires Valid()
      modifies this`files, this`seen
      ensures phase == if journal.None? then None else Some(journal.value.phase)
      ensures Valid() && (quiet ==> trusted && current == {} && files == old(files))
      ensures trusted && journal.Some? ==> current == Foreign(journal.value.targets)
    {
      Open();
      phase, current, trusted := None, {}, true;
      if journal.None? { return; }
      phase := Some(journal.value.phase);
      var states;
      trusted, states := States(journal.value);
      if trusted {
        current := set t | t in states && !Recognised(states[t], journal.value.targets[t]);
      }
    }

    /** However often the first plan is applied and crashes, one uninterrupted repetition applies all of it. */
    method AnyApplies(plan: map<Target, Change>, crashes: nat) returns (r: Outcome)
      requires Valid() && quiet && journal == None && ValidChanges(plan) && Expected(plan)
      modifies this
      ensures Valid() && r == Done(Applied)
      ensures forall t :: Get(files, t) == if t in plan then AppliedBy(plan[t]) else Get(origin, t)
    {
      for i := 0 to crashes
        invariant Valid()
        invariant journal.Some? ==> journal.value.intent == ToApply && Matches(plan, journal.value.targets)
      {
        power := *;
        var _ := Apply(Some(plan));
      }
      power := UNINTERRUPTED;
      r := Apply(Some(plan));
      Open();
    }

    /**
     Every run: any sequence of calls with any plans, crashed anywhere, keeps `Valid`,
     and one uninterrupted restore afterwards undoes all of it.
     */
    method AnyHistory(calls: seq<Option<map<Target, Change>>>) returns (r: Outcome)
      requires Valid() && quiet
      modifies this
      ensures Valid() && r in {Absent, Done(Restored)} && files == origin
    {
      for i := 0 to |calls|
        invariant Valid()
      {
        power := *;
        var restoring: bool := *;
        if restoring { var _ := Restore(); } else { var _ := Apply(calls[i]); }
      }
      power := UNINTERRUPTED;
      r := Restore();
    }
  }

  lemma SameFiles(a: Files, b: Files)
    requires forall t :: Get(a, t) == Get(b, t)
    ensures a == b
  {
    forall t ensures t in a <==> t in b { assert Get(a, t) == Get(b, t); }
    forall t | t in a ensures a[t] == b[t] { assert Get(a, t) == Get(b, t); }
  }
}
