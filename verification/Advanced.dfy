/**
 Boot trials and CPU policy (helper/advanced.py): one journal, the files of the boot
 partition, the CPU policy, and reboots in between.

 Every call reads the durable state again, has the `power` for some number of durable
 steps and then fails (it dies, or an I/O error ends it). Boot identities never recur;
 everything else that is observed may change between any two steps unless `quiet`.
 */
module Advanced {
  import opened Bytes

  // --------------------------------------------------------------- data model

  const STOCK_MHZ := 2400
  const MAX_MHZ := 2700
  const STEP_MHZ := 50
  const CONFIRM_SECONDS := 120
  const MAX_TRIAL_SECONDS := 14400
  const GRACE_SECONDS := 30
  const MAX_CONFIG := 65536
  const GOVERNORS := ["ondemand", "schedutil", "conservative", "powersave", "performance"]

  /** With this much power no call fails. */
  const UNINTERRUPTED := 8

  datatype Digest = Sha256(of: string)

  datatype BootFacts = BootFacts(bootId: nat, boot: Boot)

  datatype Boot = Boot(tryboot: bool, configuredMhz: int, layoutVerified: bool, platform: string)

  datatype Readiness = Readiness(complete: bool, bootId: nat, platform: string, config: Digest)

  /** Everything about the machine that a call observes, besides the boot identity and the CPU policy. */
  datatype Machine = Machine(
    boot: Boot, observable: bool,
    supported: bool,                 // no alternate boot assets, no unsupported directives
    config: Option<string>, tryboot: Option<string>, baseline: Option<string>, safeMode: bool,
    readiness: Option<Readiness>, healthy: bool)

  datatype Policy = Policy(governor: string, maxKhz: int)

  datatype CpuSnapshot = CpuSnapshot(policy: Policy, governors: seq<string>, minKhz: int, hardwareMaxKhz: int)

  datatype CpuState = Applying | Applied | CpuRestored

  datatype Cpu = Cpu(state: CpuState, bootId: nat, baseline: Policy, before: Policy, target: Policy)

  datatype TrialState = Staging | Requested | Active | Confirmed | RollbackRequested | ManualRecovery | Restored

  datatype Trial = Trial(id: nat, state: TrialState, originBootId: nat, mhz: int, baseline: string, candidate: string,
                         config: Digest, candidateDigest: Digest, platform: string, baselineBits: int,
                         requestedAt: Option<int>, activeBootId: Option<nat>, startedAt: Option<int>,
                         deadline: Option<int>, rebootRequested: Option<nat>, cleanupConflict: bool)

  datatype Profile = Profile(mhz: int, config: Digest, platform: string, trialId: nat)

  datatype Record = Record(cpu: Option<Cpu>, trial: Option<Trial>, profile: Option<Profile>)

  function Decimal(n: nat): string {
    if n < 10 then ["0123456789"[n]] else Decimal(n / 10) + ["0123456789"[n % 10]]
  }

  function Candidate(baseline: string, mhz: nat): string {
    baseline + "\n# PanelBridge trial; normal config is unchanged\n[all]\narm_freq=" + Decimal(mhz) + "\n"
  }

  predicate ValidPolicy(p: Policy) {
    p.governor in GOVERNORS && 0 < p.maxKhz <= STOCK_MHZ * 1000
  }

  predicate ValidCpu(c: Cpu) {
    ValidPolicy(c.baseline) && ValidPolicy(c.before) && ValidPolicy(c.target)
  }

  predicate TrialFrequency(mhz: int) {
    STOCK_MHZ < mhz <= MAX_MHZ
  }

  predicate ValidTrial(t: Trial) {
    && TrialFrequency(t.mhz) && t.baselineBits == 0 && t.platform != ""
    && |t.baseline| <= MAX_CONFIG && t.config == Sha256(t.baseline) && t.candidateDigest == Sha256(t.candidate)
    && t.candidate == Candidate(t.baseline, t.mhz)
    && (t.state == Requested ==> t.requestedAt.Some? && t.requestedAt.value >= 0)
    && (t.state in {Active, Confirmed} ==>
          && t.activeBootId.Some? && t.startedAt.Some? && t.deadline.Some?
          && 0 <= t.startedAt.value && t.deadline.value == t.startedAt.value + CONFIRM_SECONDS)
  }

  predicate ValidProfile(p: Profile) {
    TrialFrequency(p.mhz) && p.platform != ""
  }

  /** What `_load` accepts. */
  ghost predicate ValidRecord(r: Record) {
    && (forall c :: r.cpu == Some(c) ==> ValidCpu(c))
    && (forall p :: r.profile == Some(p) ==> ValidProfile(p))
    && (forall t :: r.trial == Some(t) ==> ValidTrial(t))
  }

  predicate CpuIdle(r: Record) {
    r.cpu.None? || r.cpu.value.state == CpuRestored
  }

  predicate TrialIdle(r: Record) {
    r.trial.None? || r.trial.value.state == Restored
  }

  /** `_cpu_values` succeeds. */
  predicate Readable(s: CpuSnapshot) {
    && s.policy.governor in GOVERNORS && s.policy.governor in s.governors
    && 0 < s.minKhz <= s.policy.maxKhz <= s.hardwareMaxKhz <= STOCK_MHZ * 1000
  }

  /** Each field holds a value that the transaction put or found there. */
  predicate Owned(p: Policy, c: Cpu) {
    && p.governor in [c.before.governor, c.target.governor, c.baseline.governor]
    && p.maxKhz in [c.before.maxKhz, c.target.maxKhz, c.baseline.maxKhz]
  }

  /** The hardware offers every value of the transaction. */
  predicate AllReadable(s: CpuSnapshot, c: Cpu) {
    Readable(s.(policy := c.baseline)) && Readable(s.(policy := c.before)) && Readable(s.(policy := c.target))
  }

  lemma OwnedReadable(s: CpuSnapshot, c: Cpu)
    requires AllReadable(s, c) && Owned(s.policy, c)
    ensures Readable(s)
  {
  }

  /** `_normal_baseline_verified` */
  predicate Verified(t: Trial, boot: Boot, m: Machine) {
    boot.platform == t.platform && Supported(boot, m) && m.config == Some(t.baseline)
  }

  /** `_config` succeeds. */
  predicate Supported(boot: Boot, m: Machine) {
    boot.layoutVerified && m.supported && m.config.Some? && |m.config.value| <= MAX_CONFIG
  }

  /** When a running trial ends: a confirmed one lasts longer than the recorded deadline. */
  function Deadline(t: Trial): int
    requires ValidTrial(t) && t.state in {Active, Confirmed}
  {
    if t.state == Confirmed then t.startedAt.value + MAX_TRIAL_SECONDS else t.deadline.value
  }

  // ------------------------------------------- where the guardian leaves a trial

  /** The state in which a retreat leaves the trial; `healthy` is a fresh sample. */
  function Retreat(t: Trial, facts: BootFacts, verified: bool, healthy: bool): TrialState {
    if !verified then ManualRecovery
    else if facts.boot.tryboot || (facts.bootId == t.originBootId && t.state != Staging) then RollbackRequested
    else if facts.boot.configuredMhz == STOCK_MHZ && healthy then Restored
    else t.state
  }

  /** This boot is the trial, as it was staged. */
  predicate Matches(t: Trial, facts: BootFacts, m: Machine) {
    && facts.boot.tryboot && t.state !in {Staging, RollbackRequested, ManualRecovery}
    && facts.bootId != t.originBootId && facts.boot.configuredMhz == t.mhz && facts.boot.platform == t.platform
    && m.config == Some(t.baseline) && m.tryboot == Some(t.candidate)
  }

  /** Still waiting for the reboot into the trial. */
  predicate InGrace(t: Trial, facts: BootFacts, now: int) {
    t.state == Requested && !facts.boot.tryboot && facts.bootId == t.originBootId
    && t.requestedAt.Some? && 0 <= now - t.requestedAt.value < GRACE_SECONDS
  }

  /** A running trial, in its own boot and its time. */
  predicate InTime(t: Trial, facts: BootFacts, now: int)
    requires ValidTrial(t) && t.state in {Active, Confirmed}
  {
    t.activeBootId == Some(facts.bootId) && t.startedAt.value <= now < Deadline(t)
  }

  /** The state in which a guardian call at `now` leaves an unfinished trial; facts may be refused. */
  function Guarded(t: Trial, facts: BootFacts, m: Machine, now: int): TrialState
    requires ValidTrial(t) && t.state != Restored
  {
    var verified := Verified(t, facts.boot, m);
    if !m.observable then t.state
    else if verified && !m.safeMode && InGrace(t, facts, now) then Requested
    else if verified && !m.safeMode && Matches(t, facts, m) && m.healthy
            && (t.state == Requested || InTime(t, facts, now)) then
      if t.state == Requested then Active else t.state
    else Retreat(t, facts, verified, m.healthy)
  }

  /** A trial goes on, or starts, only in its own verified and healthy trial boot, or by the cases below. */
  lemma RunsOnlyMatched(t: Trial, facts: BootFacts, m: Machine, now: int)
    requires ValidTrial(t) && t.state != Restored && Guarded(t, facts, m, now) in {Active, Confirmed}
    ensures m.observable && facts.boot.tryboot ==>
              Matches(t, facts, m) && Verified(t, facts.boot, m) && m.healthy && !m.safeMode
    ensures m.observable && !facts.boot.tryboot ==> t.state in {Active, Confirmed} && Abandoned(t, facts, m)
    ensures !m.observable ==> Guarded(t, facts, m, now) == t.state
  {
  }

  /** A later normal boot with the verified baseline, but not at the stock frequency or not healthy. */
  predicate Abandoned(t: Trial, facts: BootFacts, m: Machine) {
    && Verified(t, facts.boot, m) && !facts.boot.tryboot && facts.bootId != t.originBootId
    && (facts.boot.configuredMhz != STOCK_MHZ || !m.healthy)
  }

  /** A confirmed trial, undisturbed in its own boot and within four hours of its start. */
  predicate Undisturbed(t: Trial, facts: BootFacts, m: Machine, now: int)
    requires ValidTrial(t) && t.state in {Active, Confirmed}
  {
    && t.state == Confirmed && Verified(t, facts.boot, m) && !m.safeMode && Matches(t, facts, m) && m.healthy
    && InTime(t, facts, now)
  }

  /**
   When a guardian call at or after the recorded deadline leaves a trial running: the host's
   facts are refused, or the trial is confirmed and undisturbed, or it is abandoned.
   */
  lemma PastRecordedDeadline(t: Trial, facts: BootFacts, m: Machine, now: int)
    requires ValidTrial(t) && t.state in {Active, Confirmed} && now >= t.deadline.value
    ensures Guarded(t, facts, m, now) in {Active, Confirmed}
            <==> !m.observable || Undisturbed(t, facts, m, now) || Abandoned(t, facts, m)
  {
  }

  /** From the end of the trial's time on, which is later for a confirmed one, being undisturbed does not help. */
  lemma OverdueLeftRunning(t: Trial, facts: BootFacts, m: Machine, now: int)
    requires ValidTrial(t) && t.state in {Active, Confirmed} && now >= Deadline(t)
    ensures Guarded(t, facts, m, now) in {Active, Confirmed} <==> !m.observable || Abandoned(t, facts, m)
  {
  }

  /** A trial at its deadline of 125 s, in a healthy normal boot at 2500 MHz: it stays active. */
  lemma AbandonedExample() returns (t: Trial, m: Machine)
    ensures ValidTrial(t) && t.state == Active && Deadline(t) == 125
    ensures m.observable && m.healthy && Guarded(t, BootFacts(3, m.boot), m, 125) == Active
  {
    t, m := ExampleTrial(), ExampleMachine(Boot(false, 2500, true, "pi5"));
  }

  /** The same trial in its own boot: in retreat at the deadline, but active still where the facts are refused. */
  lemma RefusedExample() returns (t: Trial, m: Machine)
    ensures ValidTrial(t) && t.state == Active && Deadline(t) == 125
    ensures Guarded(t, BootFacts(2, m.boot), m, 125) == RollbackRequested
    ensures Guarded(t, BootFacts(2, m.boot), m.(observable := false), 125) == Active
  {
    t, m := ExampleTrial(), ExampleMachine(Boot(true, 2450, true, "pi5"));
  }

  /** Once confirmed, it stays so for hours past the recorded deadline. */
  lemma ConfirmedExample() returns (t: Trial, m: Machine)
    ensures ValidTrial(t) && t.state == Confirmed && t.deadline == Some(125)
    ensures Guarded(t, BootFacts(2, m.boot), m, 5000) == Confirmed
  {
    t, m := ExampleTrial().(state := Confirmed), ExampleMachine(Boot(true, 2450, true, "pi5"));
  }

  function ExampleTrial(): Trial {
    var config := "arm_freq=2400\n";
    var candidate := Candidate(config, 2450);
    Trial(7, Active, 1, 2450, config, candidate, Sha256(config), Sha256(candidate), "pi5", 0,
          Some(3), Some(2), Some(5), Some(125), None, false)
  }

  function ExampleMachine(boot: Boot): Machine {
    var config := "arm_freq=2400\n";
    Machine(boot, true, true, Some(config), Some(Candidate(config, 2450)), None, false, None, true)
  }

  // ------------------------------------------------------------------ helper

  datatype Problem = Conflict | Unavailable | Busy | Invalid | NotReady | VerifyFailed | UnsupportedHost
                   | UnmanagedTrial | Unhealthy | BaselineUnverified | Rejected

  datatype Outcome = Ok | Raised(problem: Problem) | Failed

  datatype Reboot = Reboot(trial: nat, bootId: nat)

  /** The invariants of the helper, one by one. */
  datatype Law = Recorded | Steps | Reboots | Restores

  class AdvancedHelper {
    const quiet: bool                // nobody else ever changes the machine
    const obeying: bool              // the hardware takes every CPU write
    var steady: bool                 // nobody else does during this call
    var bootId: nat
    var machine: Machine
    var clock: nat
    var cpu: CpuSnapshot
    // the journal
    var record: Record
    var power: nat
    var ids: nat                     // trial identities handed out
    ghost var confirmations: nat
    ghost var normalReboots: multiset<Reboot>
    ghost var original: Policy       // the CPU policy before the first unrestored call of this boot
    ghost var cpuWrites: nat

    /** Every journal is accepted on loading; an unfinished trial excludes a CPU transaction. */
    ghost predicate Sound()
      reads this`record, this`ids
    {
      && ValidRecord(record) && (TrialIdle(record) || CpuIdle(record))
      && (record.trial.Some? ==> record.trial.value.id < ids)
    }

    /** At most one step above what was confirmed, and never above the maximum. */
    ghost predicate Stepwise()
      reads this`record, this`confirmations
    {
      && (record.profile.Some? ==> record.profile.value.mhz <= STOCK_MHZ + STEP_MHZ * confirmations)
      && (record.trial.Some? ==> record.trial.value.mhz <= STOCK_MHZ + STEP_MHZ * (confirmations + 1))
    }

    /** At most one normal reboot for each trial and boot, announced in the journal before. */
    ghost predicate OneReboot()
      reads this`record, this`bootId, this`ids, this`normalReboots
    {
      forall e :: e in normalReboots ==>
        && normalReboots[e] == 1 && e.bootId <= bootId && e.trial < ids
        && (record.trial.Some? && e == Reboot(record.trial.value.id, bootId) ==>
              record.trial.value.rebootRequested == Some(bootId))
    }

    /** An unrestored CPU transaction of this boot: its baseline is the first policy seen. */
    ghost predicate Restorable()
      reads this`record, this`bootId, this`cpu, this`original
    {
      && (record.cpu.Some? ==> record.cpu.value.bootId <= bootId)
      && (!CpuIdle(record) && record.cpu.value.bootId == bootId ==>
        var c := record.cpu.value;
        && c.baseline == original
        && (quiet ==> Owned(cpu.policy, c) && AllReadable(cpu, c)))
    }

    ghost predicate Kept(law: Law)
      reads this`record, this`ids, this`confirmations, this`bootId, this`normalReboots, this`cpu, this`original
    {
      match law
      case Recorded => Sound()
      case Steps => Stepwise()
      case Reboots => OneReboot()
      case Restores => Restorable()
    }

    ghost predicate Valid()
      reads this`record, this`ids, this`confirmations, this`bootId, this`normalReboots, this`cpu, this`original
    {
      forall law :: Kept(law)
    }

    lemma Open()
      requires Valid()
      ensures Sound() && Stepwise() && OneReboot() && Restorable()
    {
      assert Kept(Recorded) && Kept(Steps) && Kept(Reboots) && Kept(Restores);
    }

    lemma Accepted()
      requires Valid()
      ensures Sound()
    {
      assert Kept(Recorded);
    }

    lemma Close()
      requires Sound() && Stepwise() && OneReboot() && Restorable()
      ensures Valid()
    {
      forall law ensures Kept(law) {
        match law { case Recorded => case Steps => case Reboots => case Restores => }
      }
    }

    constructor (machine: Machine, cpu: CpuSnapshot, quiet: bool, obeying: bool)
      ensures Valid() && this.quiet == quiet && this.obeying == obeying && record == Record(None, None, None)
    {
      this.quiet, this.obeying, steady := quiet, obeying, false;
      this.machine, this.cpu, record := machine, cpu, Record(None, None, None);
      bootId, clock, power, ids := 0, 0, 0, 0;
      confirmations, normalReboots, original, cpuWrites := 0, multiset{}, cpu.policy, 0;
      new;
      Close();
    }

    function Facts(): BootFacts
      reads this`bootId, this`machine
    {
      BootFacts(bootId, machine.boot)
    }

    method Step() returns (alive: bool)
      modifies this`power
      ensures alive <==> old(power) > 0
      ensures power == if alive then old(power) - 1 else 0
    {
      alive := power > 0;
      if alive { power := power - 1; }
    }

    predicate Still()
      reads this`steady
    {
      quiet || steady
    }

    /** Time passes within a call; unless it is still, all but the boot identity and the journal may change. */
    method Outside()
      requires Valid()
      modifies this`machine, this`clock, this`cpu
      ensures Valid() && clock >= old(clock) && (Still() ==> machine == old(machine) && cpu == old(cpu))
    {
      Open();
      var now: int := *;
      if now > clock { clock := now; }
      if !quiet && !steady { machine, cpu := *, *; }
      Close();
    }

    /** Between two looks the machine may change, at the same time. */
    method Glance()
      requires Valid()
      modifies this`machine, this`cpu
      ensures Valid() && (Still() ==> machine == old(machine) && cpu == old(cpu))
    {
      Open();
      if !quiet && !steady { machine, cpu := *, *; }
      Close();
    }

    /** Between calls the machine may change, and the next call may be still or not. */
    method Between()
      requires Valid()
      modifies this`machine, this`clock, this`cpu, this`steady, this`power
      ensures Valid() && clock >= old(clock)
    {
      steady, power := false, *;
      Outside();
      steady := *;
    }

    /** The machine restarts: a new boot identity; the clock and the CPU policy start over. */
    method Restart()
      requires Valid()
      modifies this`bootId, this`machine, this`clock, this`cpu
      ensures Valid() && bootId == old(bootId) + 1
    {
      Open();
      bootId, machine, clock, cpu := bootId + 1, *, *, *;
      Close();
    }

    /** `_save` */
    method Save(r: Record) returns (saved: bool)
      requires Valid() && ValidRecord(r) && (TrialIdle(r) || CpuIdle(r))
      requires Next(r)
      modifies this`record, this`power
      ensures Valid() && saved == (old(power) > 0) && record == if saved then r else old(record)
      ensures old(power) <= power + 1
    {
      Open();
      saved := Step();
      if saved {
        record := r;
        Close();
      }
    }

    /** What a new journal must keep for the invariants. */
    ghost predicate Next(r: Record)
      reads this`record, this`ids, this`confirmations, this`bootId, this`normalReboots, this`cpu, this`original
    {
      && (r.profile.Some? ==> r.profile.value.mhz <= STOCK_MHZ + STEP_MHZ * confirmations)
      && (r.trial.Some? ==> r.trial.value.id < ids && r.trial.value.mhz <= STOCK_MHZ + STEP_MHZ * (confirmations + 1))
      && (forall e :: e in normalReboots && r.trial.Some? && e == Reboot(r.trial.value.id, bootId) ==>
            r.trial.value.rebootRequested == Some(bootId))
      && (r.cpu.Some? ==> r.cpu.value.bootId <= bootId)
      && (!CpuIdle(r) && r.cpu.value.bootId == bootId ==>
            && r.cpu.value.baseline == original
            && (quiet ==> Owned(cpu.policy, r.cpu.value) && AllReadable(cpu, r.cpu.value)))
    }

    // ------------------------------------------------------------ CPU policy

    /** `write_cpu` of the cap: hardware that does not obey may refuse. */
    method WriteCap(maxKhz: int) returns (o: Outcome)
      requires Valid() && Chained() && maxKhz in [record.cpu.value.baseline.maxKhz, record.cpu.value.target.maxKhz]
      modifies this`machine, this`clock, this`cpu, this`power, this`cpuWrites
      ensures Valid() && clock >= old(clock) && (Still() ==> machine == old(machine))
      ensures o in {Ok, Raised(Unavailable), Failed}
      ensures Still() && o == Ok ==> cpu == old(cpu).(policy := old(cpu).policy.(maxKhz := maxKhz))
      ensures Still() && obeying && old(power) > 0 ==> o == Ok && old(power) <= power + 1
    {
      Outside();
      o := Attempt();
      if o == Ok {
        Open();
        cpu := cpu.(policy := cpu.policy.(maxKhz := maxKhz));
        Close();
      }
    }

    /** `write_cpu` of the governor. */
    method WriteGovernor(governor: string) returns (o: Outcome)
      requires Valid() && Chained()
      requires governor in [record.cpu.value.baseline.governor, record.cpu.value.target.governor]
      modifies this`machine, this`clock, this`cpu, this`power, this`cpuWrites
      ensures Valid() && clock >= old(clock) && (Still() ==> machine == old(machine))
      ensures o in {Ok, Raised(Unavailable), Failed}
      ensures Still() && o == Ok ==> cpu == old(cpu).(policy := old(cpu).policy.(governor := governor))
      ensures Still() && obeying && old(power) > 0 ==> o == Ok && old(power) <= power + 1
    {
      Outside();
      o := Attempt();
      if o == Ok {
        Open();
        cpu := cpu.(policy := cpu.policy.(governor := governor));
        Close();
      }
    }

    method Attempt() returns (o: Outcome)
      modifies this`power, this`cpuWrites
      ensures o in {Ok, Raised(Unavailable), Failed} && old(power) <= power + 1
      ensures obeying && old(power) > 0 ==> o == Ok
      ensures cpuWrites == old(cpuWrites) + 1
    {
      cpuWrites := cpuWrites + 1;
      var alive := Step();
      if !alive { return Failed; }
      var refused: bool := *;
      return if refused && !obeying then Raised(Unavailable) else Ok;
    }

    /** What a restoration in the transaction's own boot needs of the hardware. */
    predicate Possible()
      requires record.cpu.Some?
      reads this`cpu, this`record
    {
      Readable(cpu) && Owned(cpu.policy, record.cpu.value) && Readable(cpu.(policy := record.cpu.value.baseline))
    }

    /**
     `_restore_cpu`. In the boot of the transaction it ends with the policy found before
     the first unrestored call, or it leaves a foreign value alone and writes nothing; in
     a later boot it closes the record and writes nothing. A still and uninterrupted call
     on an observed host does so whenever the hardware obeys and offers the baseline, which
     it does if nobody else ever touched it; it refuses exactly an unreadable or foreign policy.
     */
    method RestoreCpu() returns (o: Outcome)
      requires Valid()
      modifies this`machine, this`clock, this`cpu, this`record, this`power, this`cpuWrites
      ensures Valid() && clock >= old(clock) && (Still() ==> machine == old(machine))
      ensures o in {Ok, Failed, Raised(UnsupportedHost), Raised(Unavailable), Raised(Conflict), Raised(VerifyFailed)}
      ensures if o == Ok then CpuIdle(record) else record == old(record)
      ensures record == old(record) || (old(record).cpu.Some? && record == Closed(old(record)))
      ensures old(CpuIdle(record)) ==> o == Ok && record == old(record) && power == old(power)
      ensures !old(Chained()) || o == Raised(Conflict) ==> cpuWrites == old(cpuWrites)
      ensures !old(Chained()) && Still() ==> cpu == old(cpu)
      ensures o == Ok && old(Chained()) ==> cpu.policy == original
      ensures Still() && old(machine).observable && !old(Chained()) && old(power) >= 1 ==> o == Ok
      ensures Still() && old(machine).observable && old(Chained()) ==>
                && (!old(Readable(cpu)) ==> o == Raised(Unavailable) && cpuWrites == old(cpuWrites) && cpu == old(cpu))
                && (o == Raised(Conflict) <==> old(Readable(cpu) && !Owned(cpu.policy, record.cpu.value)))
                && (o == Raised(Conflict) ==> cpu == old(cpu))
                && (obeying && old(power) >= 3 && (quiet || old(Possible())) ==> o == Ok)
    {
      if CpuIdle(record) { return Ok; }
      Outside();
      if !machine.observable { return Raised(UnsupportedHost); }
      if bootId == record.cpu.value.bootId {
        o := PutBack();
        if o != Ok { return; }
      }
      var saved := CloseCpu();
      return if saved then Ok else Failed;
    }

    method CloseCpu() returns (saved: bool)
      requires Valid() && !CpuIdle(record)
      modifies this`record, this`power
      ensures Valid() && record == (if saved then Closed(old(record)) else old(record)) && saved == (old(power) > 0)
    {
      Open();
      saved := Save(Closed(record));
    }

    /** The check of `_restore_cpu` before it writes. */
    method PutBack() returns (o: Outcome)
      requires Valid() && Chained()
      modifies this`machine, this`clock, this`cpu, this`power, this`cpuWrites
      ensures Valid() && clock >= old(clock) && (Still() ==> machine == old(machine))
      ensures o in {Ok, Failed, Raised(Unavailable), Raised(Conflict), Raised(VerifyFailed)}
      ensures !old(Readable(cpu)) ==> o == Raised(Unavailable) && cpuWrites == old(cpuWrites) && cpu == old(cpu)
      ensures o == Raised(Conflict) <==> old(Readable(cpu) && !Owned(cpu.policy, record.cpu.value))
      ensures o == Raised(Conflict) ==> cpuWrites == old(cpuWrites) && cpu == old(cpu)
      ensures o == Ok ==> cpu.policy == original
      ensures Still() && obeying && old(power) >= 2 && (quiet || old(Possible())) ==> o == Ok && old(power) <= power + 2
    {
      Open();
      var c, current := record.cpu.value, cpu.policy;
      if quiet { OwnedReadable(cpu, c); }
      if !Readable(cpu) { return Raised(Unavailable); }
      if !Owned(current, c) { return Raised(Conflict); }
      o := WriteBack(c.baseline);
    }

    /** The writes of `_restore_cpu`, each field that is not at its baseline, read back. */
    method WriteBack(baseline: Policy) returns (o: Outcome)
      requires Valid() && Chained() && baseline == record.cpu.value.baseline
      modifies this`machine, this`clock, this`cpu, this`power, this`cpuWrites
      ensures Valid() && clock >= old(clock) && (Still() ==> machine == old(machine))
      ensures o in {Ok, Failed, Raised(Unavailable), Raised(VerifyFailed)}
      ensures o == Ok ==> cpu.policy == baseline
      ensures Still() && obeying && old(power) >= 2 && old(Readable(cpu.(policy := baseline))) ==>
                o == Ok && old(power) <= power + 2
    {
      var current := cpu.policy;
      if current.maxKhz != baseline.maxKhz {
        o := WriteCap(baseline.maxKhz);
        if o != Ok { return; }
      }
      if current.governor != baseline.governor {
        o := WriteGovernor(baseline.governor);
        if o != Ok { return; }
      }
      Outside();
      if !Readable(cpu) { return Raised(Unavailable); }
      return if cpu.policy == baseline then Ok else Raised(VerifyFailed);
    }

    static function Closed(r: Record): Record
      requires r.cpu.Some?
    {
      r.(cpu := Some(r.cpu.value.(state := CpuRestored)))
    }

    /** There is an unrestored CPU transaction of this boot. */
    predicate Chained()
      reads this`record, this`bootId
    {
      !CpuIdle(record) && record.cpu.value.bootId == bootId
    }

    /** The conditions of `set_cpu`: a stock boot outside safe mode, no trial, and settings on offer. */
    predicate Acceptable(governor: string, capMhz: int)
      reads this`machine, this`record, this`cpu, this`bootId
    {
      && !machine.boot.tryboot && machine.boot.configuredMhz == STOCK_MHZ && !machine.safeMode
      && TrialIdle(record) && Readable(cpu) && Offered(cpu, governor, capMhz)
      && (Chained() ==> record.cpu.value.state == Applied && cpu.policy == record.cpu.value.target)
    }

    predicate Offered(s: CpuSnapshot, governor: string, capMhz: int) {
      governor in GOVERNORS && governor in s.governors && s.minKhz <= capMhz * 1000 <= s.hardwareMaxKhz
    }

    /**
     `set_cpu`. A second call in one boot keeps the first baseline; a call whose settings
     do not take effect is restored. A still, uninterrupted call on obeying hardware succeeds
     exactly when the host is observed and the request acceptable.
     */
    method SetCpu(governor: string, capMhz: int) returns (o: Outcome)
      requires Valid()
      modifies this`machine, this`clock, this`cpu, this`record, this`power, this`cpuWrites, this`original
      ensures Valid()
      ensures original == old(original) || !old(Chained())
      ensures Still() ==> original in [old(original), old(cpu).policy]
      ensures o == Ok ==> !CpuIdle(record) && record.cpu.value.state == Applied
                          && record.cpu.value.target == Policy(governor, capMhz * 1000)
                          && cpu.policy == record.cpu.value.target
      ensures o == Raised(VerifyFailed) && CpuIdle(record) ==> cpu.policy == original
      ensures o in {Raised(Busy), Raised(Invalid)} ==> record == old(record) && cpuWrites == old(cpuWrites)
      ensures Still() && !old(machine.observable && Acceptable(governor, capMhz)) ==>
                o.Raised? && record == old(record) && cpu == old(cpu) && cpuWrites == old(cpuWrites)
      ensures Still() && obeying && old(power) >= 4 ==>
                (o == Ok <==> old(machine.observable && Acceptable(governor, capMhz)))
    {
      Outside();
      if !machine.observable { return Raised(UnsupportedHost); }
      if machine.boot.tryboot || machine.boot.configuredMhz != STOCK_MHZ || machine.safeMode {
        return Raised(Unavailable);
      }
      if !TrialIdle(record) { return Raised(Busy); }
      if !Readable(cpu) { return Raised(Unavailable); }
      if !Offered(cpu, governor, capMhz) { return Raised(Invalid); }
      if Chained() && (record.cpu.value.state != Applied || cpu.policy != record.cpu.value.target) {
        return Raised(Conflict);
      }
      o := Tune(Policy(governor, capMhz * 1000));
    }

    /** The accepted part of `set_cpu`: the baseline is the first one of this boot. */
    method Tune(target: Policy) returns (o: Outcome)
      requires Valid() && TrialIdle(record) && Readable(cpu) && Readable(cpu.(policy := target))
      modifies this`machine, this`clock, this`cpu, this`record, this`power, this`cpuWrites, this`original
      ensures Valid()
      ensures original == if old(Chained()) then old(original) else old(cpu).policy
      ensures o == Ok ==> !CpuIdle(record) && record.cpu.value.state == Applied && record.cpu.value.target == target
                          && cpu.policy == target
      ensures o == Raised(VerifyFailed) && CpuIdle(record) ==> cpu.policy == original
      ensures o !in {Raised(Busy), Raised(Invalid)}
      ensures Still() && obeying && old(power) >= 4 ==> o == Ok
    {
      Open();
      var first := cpu.policy;
      if Chained() {
        first := record.cpu.value.baseline;
      } else {
        original := first;
      }
      Close();
      o := Transact(Cpu(Applying, bootId, first, cpu.policy, target));
    }

    /** The journalled part of `set_cpu`. */
    method Transact(c: Cpu) returns (o: Outcome)
      requires Valid() && TrialIdle(record) && ValidCpu(c)
      requires c.state == Applying && c.bootId == bootId && c.baseline == original && cpu.policy == c.before
      requires Readable(cpu.(policy := c.target)) && (quiet ==> AllReadable(cpu, c))
      modifies this`machine, this`clock, this`cpu, this`record, this`power, this`cpuWrites
      ensures Valid()
      ensures o == Ok ==> record.cpu == Some(c.(state := Applied)) && cpu.policy == c.target
      ensures o == Raised(VerifyFailed) && CpuIdle(record) ==> cpu.policy == original
      ensures o !in {Raised(Busy), Raised(Invalid)}
      ensures Still() && obeying && old(power) >= 4 ==> o == Ok
    {
      Open();
      var saved := Save(record.(cpu := Some(c)));
      if !saved { return Failed; }
      o := Apply(c.target);
      if o == Failed { return; }
      if o != Ok {
        o := RestoreCpu();
        return if o == Ok then Raised(VerifyFailed) else o;
      }
      Open();
      saved := Save(record.(cpu := Some(c.(state := Applied))));
      return if saved then Ok else Failed;
    }

    /** The two writes of `set_cpu`, read back. */
    method Apply(target: Policy) returns (o: Outcome)
      requires Valid() && Chained() && record.cpu.value.target == target
      modifies this`machine, this`clock, this`cpu, this`power, this`cpuWrites
      ensures Valid() && clock >= old(clock) && (Still() ==> machine == old(machine))
      ensures o == Ok ==> cpu.policy == target
      ensures Still() && obeying && old(power) >= 2 && old(Readable(cpu.(policy := target))) ==>
                o == Ok && old(power) <= power + 2
    {
      o := WriteCap(target.maxKhz);
      if o != Ok { return; }
      o := WriteGovernor(target.governor);
      if o != Ok { return; }
      Outside();
      return if Readable(cpu) && cpu.policy == target then Ok else Raised(VerifyFailed);
    }

    // ----------------------------------------------------------- boot trials

    predicate Ready(m: Machine)
      reads this`bootId
    {
      && m.readiness.Some? && m.readiness.value.complete && m.readiness.value.bootId == bootId
      && m.readiness.value.platform == m.boot.platform && m.boot.platform != ""
      && m.config.Some? && m.readiness.value.config == Sha256(m.config.value)
    }

    /** The frequency a next trial may step up from. */
    function LastConfirmed(m: Machine): int
      requires m.config.Some?
      reads this`record
    {
      if record.profile.Some? && record.profile.value.config == Sha256(m.config.value)
         && record.profile.value.platform == m.boot.platform
      then record.profile.value.mhz else STOCK_MHZ
    }

    /** `boot.write(name, raw, expected=None)` of the trial's own files. */
    method Stage(file: string, isTryboot: bool) returns (o: Outcome)
      requires Valid()
      modifies this`machine, this`clock, this`cpu, this`power
      ensures Valid() && clock >= old(clock) && o in {Ok, Raised(Conflict), Failed}
      ensures old(power) <= power + 1
      ensures Still() && old(power) > 0 && old(if isTryboot then machine.tryboot else machine.baseline).None? ==>
                o == Ok
      ensures o == Ok && Still() ==> machine == if isTryboot then old(machine).(tryboot := Some(file))
                                              else old(machine).(baseline := Some(file))
    {
      Outside();
      if (if isTryboot then machine.tryboot else machine.baseline).Some? { return Raised(Conflict); }
      var alive := Step();
      if !alive { return Failed; }
      machine := if isTryboot then machine.(tryboot := Some(file)) else machine.(baseline := Some(file));
      return Ok;
    }

    /** A normal boot at the stock frequency, outside safe mode. */
    predicate StockBoot(m: Machine) {
      !m.boot.tryboot && m.boot.configuredMhz == STOCK_MHZ && !m.safeMode && Supported(m.boot, m)
    }

    /** A ready, healthy and untouched stock boot, and at most one step up. */
    predicate Startable(mhz: int)
      reads this`machine, this`record, this`bootId, this`cpu
    {
      && machine.observable && StockBoot(machine) && machine.healthy && Ready(machine)
      && TrialIdle(record) && CpuIdle(record) && Readable(cpu) && cpu.policy.maxKhz == STOCK_MHZ * 1000
      && TrialFrequency(mhz) && mhz <= LastConfirmed(machine) + STEP_MHZ
      && machine.tryboot.None? && (machine.baseline.Some? ==> Reusable(machine))
    }

    /** The baseline file of the trial before, which is still the configuration. */
    predicate Reusable(m: Machine)
      reads this`record
    {
      m.baseline == m.config && record.trial.Some? && m.config == Some(record.trial.value.baseline)
    }

    /** The conditions of `start_trial`, and the trial it would record. */
    method Propose(mhz: int) returns (o: Outcome, trial: Trial)
      requires Valid()
      ensures o == Ok <==> Startable(mhz)
      ensures o == Ok ==>
                && ValidTrial(trial) && trial.state == Staging
                && trial.id == ids && trial.mhz == mhz && trial.originBootId == bootId
                && trial.mhz <= STOCK_MHZ + STEP_MHZ * (confirmations + 1) && machine.config == Some(trial.baseline)
    {
      assert Kept(Steps);
      var m := machine;
      trial := Trial(ids, Staging, bootId, mhz, "", "", Sha256(""), Sha256(""), m.boot.platform, 0,
                     None, None, None, None, None, false);
      if !m.observable { return Raised(UnsupportedHost), trial; }
      if m.boot.tryboot || m.boot.configuredMhz != STOCK_MHZ || m.safeMode { return Raised(NotReady), trial; }
      if !TrialIdle(record) { return Raised(Busy), trial; }
      if !CpuIdle(record) || !Supported(m.boot, m) || !Ready(m) { return Raised(NotReady), trial; }
      if !Readable(cpu) || cpu.policy.maxKhz != STOCK_MHZ * 1000 { return Raised(NotReady), trial; }
      if !m.healthy { return Raised(Unhealthy), trial; }
      var raw := m.config.value;
      if !TrialFrequency(mhz) || mhz > LastConfirmed(m) + STEP_MHZ { return Raised(Invalid), trial; }
      if m.tryboot.Some? { return Raised(Conflict), trial; }
      if m.baseline.Some? && (m.baseline.value != raw || record.trial.None? || record.trial.value.baseline != raw) {
        return Raised(Conflict), trial;
      }
      var candidate := Candidate(raw, mhz);
      trial := trial.(baseline := raw, candidate := candidate,
                      config := Sha256(raw), candidateDigest := Sha256(candidate));
      return Ok, trial;
    }

    /**
     `start_trial` up to the reboot into the trial. A still and uninterrupted call
     starts one exactly from the boot that `Startable` describes.
     */
    method StartTrial(mhz: int) returns (o: Outcome)
      requires Valid()
      modifies this`machine, this`clock, this`cpu, this`record, this`power, this`ids
      ensures Valid()
      ensures o == Ok ==> record.trial.Some? && record.trial.value.state == Requested && record.trial.value.mhz == mhz
      ensures record.trial != old(record).trial ==>
                old(TrialIdle(record)) && record.trial.Some? && record.trial.value.id == old(ids)
      ensures Still() && o == Ok ==> old(Startable(mhz)) && Staged()
      ensures Still() && old(power) >= UNINTERRUPTED ==> (o == Ok <==> old(Startable(mhz)))
    {
      Outside();
      var trial;
      o, trial := Propose(mhz);
      if o != Ok { return; }
      var boot, fileThere := machine.boot, machine.baseline.Some?;
      var entered := Enter(trial);
      if !entered { return Failed; }
      o := Launch(trial, boot, fileThere);
    }

    /** The trial's candidate is in place beside the unchanged normal configuration. */
    predicate Staged()
      requires record.trial.Some?
      reads this`machine, this`record
    {
      machine.config == Some(record.trial.value.baseline) && machine.tryboot == Some(record.trial.value.candidate)
    }

    /** The first journal entry of a trial, under a new identity. */
    method Enter(trial: Trial) returns (entered: bool)
      requires Valid() && CpuIdle(record) && ValidTrial(trial) && trial.id == ids
      requires trial.mhz <= STOCK_MHZ + STEP_MHZ * (confirmations + 1)
      modifies this`record, this`power, this`ids
      ensures Valid() && entered == (old(power) > 0) && old(power) <= power + 1
      ensures record == if entered then old(record).(trial := Some(trial)) else old(record)
    {
      Open();
      ids := ids + 1;
      Close();
      entered := Save(record.(trial := Some(trial)));
    }

    /** Nothing is in the way of the trial's files, and nothing has changed since it was proposed. */
    predicate Prepared(trial: Trial, boot: Boot, fileThere: bool)
      reads this`machine
    {
      && machine.config == Some(trial.baseline) && machine.healthy && machine.observable && machine.boot == boot
      && machine.tryboot.None? && machine.baseline.Some? == fileThere
    }

    /** The boot files of a journalled trial, one more look, and the request. */
    method Launch(trial: Trial, boot: Boot, fileThere: bool) returns (o: Outcome)
      requires Valid() && CpuIdle(record) && record.trial == Some(trial) && ValidTrial(trial) && trial.state == Staging
      modifies this`machine, this`clock, this`cpu, this`record, this`power
      ensures Valid() && record.trial.Some? && record.trial.value.id == trial.id
      ensures o == Ok ==> record.trial.value.state == Requested && record.trial.value.mhz == trial.mhz
      ensures o == Ok && Still() ==> Staged()
      ensures Still() && old(power) >= 3 && old(Prepared(trial, boot, fileThere)) ==> o == Ok
    {
      if !fileThere {
        o := Stage(trial.baseline, false);
        if o != Ok { return; }
      }
      o := Stage(trial.candidate, true);
      if o != Ok { return; }
      Outside();
      if machine.config != Some(trial.baseline) || !machine.healthy || !machine.observable || machine.boot != boot {
        return Raised(Conflict);
      }
      var saved := SaveTrial(trial.(state := Requested, requestedAt := Some(clock)));
      return if saved then Ok else Failed;
    }

    /** A running trial is past its recorded deadline, or past the `end` of its time. */
    predicate Past(end: bool)
      reads this`record, this`clock
    {
      Running(record.trial) && ValidTrial(record.trial.value)
      && clock >= if end then Deadline(record.trial.value) else record.trial.value.deadline.value
    }

    /** A running trial is in the boot it became active in, and its time was not over at `now`. */
    predicate Timely(now: int)
      reads this`record, this`bootId
    {
      Running(record.trial) ==>
        var t := record.trial.value;
        ValidTrial(t) && t.activeBootId == Some(bootId) && now < Deadline(t)
    }

    predicate Unfinished()
      reads this`record
    {
      !TrialIdle(record) && ValidTrial(record.trial.value)
    }

    /** Where a guardian call at `now` leaves the current trial. */
    function Decided(now: int): TrialState
      requires Unfinished()
      reads this`record, this`bootId, this`machine
    {
      Guarded(record.trial.value, Facts(), machine, now)
    }

    /** Where a retreat leaves the current trial. */
    function Retreated(): TrialState
      requires record.trial.Some?
      reads this`record, this`bootId, this`machine
    {
      var t := record.trial.value;
      Retreat(t, Facts(), Verified(t, machine.boot, machine), machine.healthy)
    }

    /** An ordinary reboot on behalf of the current trial. */
    method NormalReboot()
      requires Valid() && record.trial.Some? && record.trial.value.rebootRequested == Some(bootId)
      requires Reboot(record.trial.value.id, bootId) !in normalReboots
      modifies this`normalReboots
      ensures Valid() && normalReboots == old(normalReboots) + multiset{Reboot(record.trial.value.id, bootId)}
    {
      Open();
      normalReboots := normalReboots + multiset{Reboot(record.trial.value.id, bootId)};
      Close();
    }

    /** `boot.remove` of the candidate: true when the file is gone. */
    method RemoveCandidate(candidate: string) returns (gone: bool)
      requires Valid()
      modifies this`machine, this`clock, this`cpu, this`power
      ensures Valid() && clock >= old(clock) && old(power) <= power + 1
      ensures Still() ==> machine == old(machine).(tryboot := machine.tryboot) && cpu == old(cpu)
      ensures Still() ==> (gone <==> machine.tryboot.None?)
      ensures Still() && old(machine).tryboot != Some(candidate) ==> machine == old(machine)
    {
      Outside();
      if machine.tryboot.None? { return true; }
      if machine.tryboot.value != candidate { return false; }
      var alive := Step();
      if !alive { return false; }
      machine := machine.(tryboot := None);
      return true;
    }

    /** The journal with the trial changed. */
    method SaveTrial(t: Trial) returns (saved: bool)
      requires Valid() && CpuIdle(record) && record.trial.Some? && ValidTrial(t)
      requires t.id == record.trial.value.id && t.mhz == record.trial.value.mhz
      requires t.rebootRequested == record.trial.value.rebootRequested || t.rebootRequested == Some(bootId)
               || Reboot(t.id, bootId) !in normalReboots
      modifies this`record, this`power
      ensures Valid() && saved == (old(power) > 0) && old(power) <= power + 1
      ensures record == if saved then old(record).(trial := Some(t)) else old(record)
    {
      Open();
      saved := Save(record.(trial := Some(t)));
    }

    method Manual(t: Trial) returns (o: Outcome)
      requires Valid() && CpuIdle(record) && record.trial.Some? && ValidTrial(t)
      requires t.id == record.trial.value.id && t.mhz == record.trial.value.mhz
      requires t.rebootRequested == record.trial.value.rebootRequested || Reboot(t.id, bootId) !in normalReboots
      modifies this`record, this`power
      ensures Valid() && o in {Ok, Failed} && old(power) <= power + 1 && (o == Failed ==> old(power) == 0)
      ensures o == Ok ==> record == old(record).(trial := Some(t.(state := ManualRecovery)))
      ensures o == Failed ==> record == old(record)
    {
      var saved := SaveTrial(t.(state := ManualRecovery));
      return if saved then Ok else Failed;
    }

    /** What one call may do to the trial: nothing, or change its state and bookkeeping. */
    twostate predicate SameTrial()
      reads this`record
    {
      old(record).trial.Some? ==>
        record.trial.Some? && record.trial.value.id == old(record).trial.value.id
        && record.trial.value.mhz == old(record).trial.value.mhz
    }

    /** This call ended the trial. */
    twostate predicate Closes()
      reads this`record
    {
      old(record).trial.Some? && old(record).trial.value.state != Restored
      && record.trial.Some? && record.trial.value.state == Restored
    }

    /** The ordinary reboot was issued, now or earlier in this boot (then perhaps just before a failure). */
    twostate predicate Called()
      reads this`record, this`bootId, this`normalReboots
    {
      old(record).trial.Some? ==>
        old(record).trial.value.rebootRequested == Some(bootId)
        || Reboot(old(record).trial.value.id, bootId) in normalReboots
    }

    /**
     `_rollback`. An uninterrupted retreat from a trial ends as `Retreat` says; a trial is
     closed only in a verified, healthy, normal stock boot.
     */
    method Rollback(facts: BootFacts) returns (o: Outcome)
      requires Valid() && facts.bootId == bootId
      modifies this`machine, this`clock, this`cpu, this`record, this`power, this`cpuWrites, this`normalReboots
      ensures Valid() && SameTrial() && clock >= old(clock)
      ensures o == Ok && record.trial.Some? ==>
                record.trial.value.state in {ManualRecovery, RollbackRequested, Restored}
      ensures Closes() ==> !facts.boot.tryboot && facts.boot.configuredMhz == STOCK_MHZ && machine.healthy
                           && Verified(record.trial.value, facts.boot, machine)
      ensures Still() ==> machine == old(machine).(tryboot := machine.tryboot)
      ensures Still() && old(record).trial.Some? && old(machine).tryboot != Some(old(record).trial.value.candidate) ==>
                machine == old(machine)
      ensures Still() && o == Ok && record.trial.Some? ==> record.trial.value.cleanupConflict == machine.tryboot.Some?
      ensures Still() && old(power) >= UNINTERRUPTED - 1 && old(machine).observable && facts == old(Facts())
              && old(CpuIdle(record)) && old(record).trial.Some? ==>
                o != Failed && record.trial.value.state == old(Retreated())
                && (o == Ok && record.trial.value.state == RollbackRequested ==> Called())
      ensures o == Ok ==> CpuIdle(record)
      ensures Still() && o == Ok && old(Chained()) ==> cpu.policy == original
    {
      o := RestoreCpu();
      if o != Ok { return; }
      if record.trial.None? { return if facts.boot.tryboot then Raised(UnmanagedTrial) else Ok; }
      o := RetreatTrial(facts);
    }

    /** `_rollback` of the trial, whose CPU transaction is closed. */
    method RetreatTrial(facts: BootFacts) returns (o: Outcome)
      requires Valid() && facts.bootId == bootId && CpuIdle(record) && record.trial.Some?
      modifies this`machine, this`clock, this`cpu, this`record, this`power, this`normalReboots
      ensures Valid() && SameTrial() && clock >= old(clock)
      ensures o == Ok ==> record.trial.value.state in {ManualRecovery, RollbackRequested, Restored}
      ensures Closes() ==> !facts.boot.tryboot && facts.boot.configuredMhz == STOCK_MHZ && machine.healthy
                           && Verified(record.trial.value, facts.boot, machine)
      ensures Still() ==> machine == old(machine).(tryboot := machine.tryboot)
      ensures Still() && old(power) >= UNINTERRUPTED - 1 && old(machine).observable && facts == old(Facts()) ==>
                o != Failed && record.trial.value.state == old(Retreated())
                && (o == Ok && record.trial.value.state == RollbackRequested ==> Called())
      ensures Still() ==> cpu == old(cpu)
      ensures o == Ok ==> CpuIdle(record) && (Still() ==> record.trial.value.cleanupConflict == machine.tryboot.Some?)
      ensures Still() && old(machine).tryboot != Some(old(record).trial.value.candidate) ==> machine == old(machine)
    {
      Accepted();
      var trial := record.trial.value;
      var gone := RemoveCandidate(trial.candidate);
      trial := trial.(cleanupConflict := !gone);
      if !Verified(trial, facts.boot, machine) {
        o := Manual(trial);
      } else if facts.boot.tryboot || (facts.bootId == trial.originBootId && trial.state != Staging) {
        o := RetreatBoot(trial, facts);
      } else {
        o := CloseTrial(trial, facts);
      }
    }

    /** A retreat that needs an ordinary boot: it is requested once for this boot. */
    method RetreatBoot(trial: Trial, facts: BootFacts) returns (o: Outcome)
      requires Valid() && CpuIdle(record) && facts.bootId == bootId && ValidTrial(trial) && record.trial.Some?
      requires trial == record.trial.value.(cleanupConflict := trial.cleanupConflict)
      modifies this`machine, this`clock, this`cpu, this`record, this`power, this`normalReboots
      ensures Valid() && SameTrial() && clock >= old(clock) && !Closes()
      ensures o == Ok ==> record.trial.value.state in {ManualRecovery, RollbackRequested}
      ensures Still() && old(power) >= 2 && old(machine).observable && facts == old(Facts())
              && old(Verified(trial, facts.boot, machine)) ==>
                && o == Ok && record.trial.value.state == RollbackRequested && machine == old(machine)
                && (trial.rebootRequested == Some(bootId) || Reboot(trial.id, bootId) in normalReboots)
      ensures Still() ==> cpu == old(cpu) && machine == old(machine)
      ensures o == Ok ==> record.trial.value.cleanupConflict == trial.cleanupConflict && CpuIdle(record)
    {
      Open();
      var request := trial.rebootRequested != Some(bootId);
      var t := trial.(state := RollbackRequested, rebootRequested := Some(bootId));
      var saved := SaveTrial(t);
      if !saved { return Failed; }
      if !request { return Ok; }
      o := Reconsider(t, facts);
    }

    /** One more look between the journalled request and the reboot. */
    method Reconsider(t: Trial, facts: BootFacts) returns (o: Outcome)
      requires Valid() && CpuIdle(record) && record.trial == Some(t) && ValidTrial(t) && t.state == RollbackRequested
      requires facts.bootId == bootId && t.rebootRequested == Some(bootId) && Reboot(t.id, bootId) !in normalReboots
      modifies this`machine, this`clock, this`cpu, this`record, this`power, this`normalReboots
      ensures Valid() && clock >= old(clock) && CpuIdle(record)
      ensures record == old(record)
              || record == old(record).(trial := Some(t.(state := ManualRecovery, rebootRequested := None)))
      ensures Still() ==> cpu == old(cpu) && machine == old(machine)
      ensures Still() && old(machine.observable && facts == Facts() && Verified(t, facts.boot, machine)) ==>
                o == Ok && record == old(record) && Reboot(t.id, bootId) in normalReboots
    {
      Outside();
      if !machine.observable { return Raised(UnsupportedHost); }
      if Facts() != facts || !Verified(t, facts.boot, machine) {
        o := Manual(t.(rebootRequested := None));
      } else {
        NormalReboot();
        o := Ok;
      }
    }

    /** The end of a trial. */
    method CloseTrial(trial: Trial, facts: BootFacts) returns (o: Outcome)
      requires Valid() && CpuIdle(record) && facts.bootId == bootId && ValidTrial(trial) && record.trial.Some?
      requires trial == record.trial.value.(cleanupConflict := trial.cleanupConflict)
      modifies this`record, this`power
      ensures Valid() && SameTrial()
      ensures o == Ok ==> record.trial.value.state == Restored && CpuIdle(record)
                          && record.trial.value.cleanupConflict == trial.cleanupConflict
      ensures o != Ok ==> record == old(record)
      ensures o == Ok ==> facts.boot.configuredMhz == STOCK_MHZ && machine.healthy
      ensures record.trial.value.baseline == trial.baseline && record.trial.value.platform == trial.platform
      ensures old(power) >= 1 ==>
                && o != Failed
                && record.trial.value.state
                   == if facts.boot.configuredMhz == STOCK_MHZ && machine.healthy then Restored
                      else old(record).trial.value.state
    {
      if facts.boot.configuredMhz != STOCK_MHZ { return Raised(BaselineUnverified); }
      if !machine.healthy { return Raised(Unhealthy); }
      var saved := SaveTrial(trial.(state := Restored));
      return if saved then Ok else Failed;
    }

    /** A finished trial whose candidate file could not be removed. */
    predicate LeftConflict()
      reads this`record
    {
      record.trial.Some? && record.trial.value.state == Restored && record.trial.value.cleanupConflict
    }

    /** A CPU transaction that broke off, and no trial. */
    predicate Interrupted()
      reads this`record
    {
      TrialIdle(record) && record.cpu.Some? && record.cpu.value.state == Applying
    }

    /** An observed ordinary boot without a trial, outside safe mode. */
    predicate Quiescent()
      reads this`record, this`machine
    {
      TrialIdle(record) && !LeftConflict() && machine.observable && !machine.safeMode && !machine.boot.tryboot
    }

    predicate Running(t: Option<Trial>) {
      t.Some? && t.value.state in {Active, Confirmed}
    }

    /**
     `guardian`. A call that succeeds leaves a trial running only in the boot it became
     active in and before its time is over. A still and uninterrupted call leaves an
     unfinished trial exactly as `Guarded` says; at or after the recorded deadline it leaves
     it running exactly where the facts are refused, or it is confirmed and undisturbed, or
     abandoned, and after the end of its time only the first and the last remain. Without a
     trial it closes a CPU transaction that broke off, and leaves any other alone.
     */
    method Guardian() returns (o: Outcome, ghost at: int)
      requires Valid()
      modifies this`machine, this`clock, this`cpu, this`record, this`power, this`cpuWrites, this`normalReboots
      ensures Valid() && SameTrial()
      ensures o == Ok && old(Interrupted()) ==> CpuIdle(record)
      ensures Still() && old(Quiescent() && Interrupted()) ==>
                && (o == Ok && old(Chained()) ==> cpu.policy == original)
                && (old(power) >= 3 && (!old(Chained()) || (obeying && (quiet || old(Possible())))) ==> o == Ok)
      ensures Still() && old(Quiescent() && !Interrupted()) ==> o == Ok && record == old(record) && cpu == old(cpu)
      ensures o == Ok ==> Timely(old(clock))
      ensures old(clock) <= at <= clock
      ensures Still() && old(power) >= UNINTERRUPTED && !old(TrialIdle(record)) ==>
                old(Unfinished()) && record.trial.Some? && record.trial.value.state == old(Decided(at))
      ensures Still() && old(power) >= UNINTERRUPTED && old(Past(false)) ==>
                (Running(record.trial) <==> old(|| !machine.observable
                                                || Undisturbed(record.trial.value, Facts(), machine, at)
                                                || Abandoned(record.trial.value, Facts(), machine)))
      ensures Still() && old(power) >= UNINTERRUPTED && old(Past(true)) ==>
                (Running(record.trial) <==> old(!machine.observable || Abandoned(record.trial.value, Facts(), machine)))
    {
      Accepted();
      ghost var t, facts, m := record.trial, Facts(), machine;
      o, at := Patrol();
      if Still() && old(Past(false)) { PastRecordedDeadline(t.value, facts, m, at); }
      if Still() && old(Past(true)) { OverdueLeftRunning(t.value, facts, m, at); }
    }

    /** `guardian`, step by step. */
    method Patrol() returns (o: Outcome, ghost at: int)
      requires Valid()
      modifies this`machine, this`clock, this`cpu, this`record, this`power, this`cpuWrites, this`normalReboots
      ensures Valid() && SameTrial()
      ensures o == Ok && old(Interrupted()) ==> CpuIdle(record)
      ensures Still() && old(Quiescent() && Interrupted()) ==>
                && (o == Ok && old(Chained()) ==> cpu.policy == original)
                && (old(power) >= 3 && (!old(Chained()) || (obeying && (quiet || old(Possible())))) ==> o == Ok)
      ensures Still() && old(Quiescent() && !Interrupted()) ==> o == Ok && record == old(record) && cpu == old(cpu)
      ensures o == Ok ==> Timely(old(clock))
      ensures old(clock) <= at <= clock
      ensures Still() && old(power) >= UNINTERRUPTED && !old(TrialIdle(record)) ==>
                old(Unfinished()) && record.trial.Some? && record.trial.value.state == old(Decided(at))
    {
      Outside();
      at := clock;
      var facts := Facts();
      Accepted();
      if !machine.observable { o := Raised(UnsupportedHost); return; }
      Glance();
      if machine.safeMode || LeftConflict() {
        o := Rollback(facts);
        return;
      }
      if TrialIdle(record) { o := Tidy(facts); } else { o := Guard(record.trial.value, facts); }
    }

    /** `guardian` without an unfinished trial. */
    method Tidy(facts: BootFacts) returns (o: Outcome)
      requires Valid() && TrialIdle(record)
      modifies this`machine, this`clock, this`cpu, this`record, this`power, this`cpuWrites
      ensures Valid() && record.trial == old(record).trial && clock >= old(clock)
      ensures o == Ok && old(Interrupted()) ==>
                CpuIdle(record) && !facts.boot.tryboot && (old(Chained()) ==> cpu.policy == original)
      ensures Still() && old(machine).observable && !facts.boot.tryboot && old(power) >= 3 && old(Interrupted()) ==>
                !old(Chained()) || (obeying && (quiet || old(Possible()))) ==> o == Ok
      ensures !old(Interrupted()) ==>
                record == old(record) && cpu == old(cpu) && (!facts.boot.tryboot ==> o == Ok)
    {
      if facts.boot.tryboot { return Raised(UnmanagedTrial); }
      if Interrupted() { o := RestoreCpu(); } else { o := Ok; }
    }

    /** `guardian` for an unfinished trial outside safe mode. */
    method Guard(trial: Trial, facts: BootFacts) returns (o: Outcome)
      requires Valid() && record.trial == Some(trial) && ValidTrial(trial) && trial.state != Restored
      requires CpuIdle(record) && facts.bootId == bootId
      requires Still() ==> facts == Facts() && !machine.safeMode && machine.observable
      modifies this`machine, this`clock, this`cpu, this`record, this`power, this`cpuWrites, this`normalReboots
      ensures Valid() && SameTrial() && clock >= old(clock)
      ensures o == Ok ==> Timely(old(clock))
      ensures Still() && old(power) >= UNINTERRUPTED ==>
                old(Unfinished()) && record.trial.Some? && record.trial.value.state == old(Decided(clock))
    {
      Glance();
      if !Verified(trial, facts.boot, machine) {
        o := Rollback(facts);
        return;
      }
      if trial.state == Requested && !facts.boot.tryboot && facts.bootId == trial.originBootId
         && 0 <= clock - trial.requestedAt.value < GRACE_SECONDS {
        o := Ok;
        return;
      }
      Glance();
      if !Matches(trial, facts, machine) {
        o := Rollback(facts);
        return;
      }
      Glance();
      o := Watch(trial, facts);
    }

    /** `guardian` in the trial itself: activation, then health and time. */
    method Watch(trial0: Trial, facts: BootFacts) returns (o: Outcome)
      requires Valid() && record.trial == Some(trial0) && CpuIdle(record) && facts.bootId == bootId
      requires ValidTrial(trial0) && trial0.state in {Requested, Active, Confirmed}
      modifies this`machine, this`clock, this`cpu, this`record, this`power, this`cpuWrites, this`normalReboots
      ensures Valid() && SameTrial() && clock >= old(clock)
      ensures o == Ok ==> Timely(old(clock))
      ensures Still() && old(power) >= UNINTERRUPTED && old(machine.observable && facts == Facts()) ==>
                record.trial.value.state
                == (if old(machine).healthy && (trial0.state == Requested || old(InTime(trial0, facts, clock))) then
                      if trial0.state == Requested then Active else trial0.state
                    else old(Retreated()))
    {
      if !machine.healthy {
        o := Rollback(facts);
        return;
      }
      if trial0.state == Requested {
        var active := Activate(trial0);
        if !active { return Failed; }
      }
      var trial := record.trial.value;
      Accepted();
      if trial.activeBootId != Some(bootId) || clock >= Deadline(trial) || clock < trial.startedAt.value {
        o := Rollback(facts);
        return;
      }
      return Ok;
    }

    method Activate(trial: Trial) returns (active: bool)
      requires Valid() && record.trial == Some(trial) && CpuIdle(record)
      requires ValidTrial(trial) && trial.state == Requested
      modifies this`record, this`power
      ensures Valid() && SameTrial() && CpuIdle(record) && (!active ==> record == old(record) && old(power) == 0)
      ensures active ==> Running(record.trial) && record.trial.value.activeBootId == Some(bootId)
                         && record.trial.value.state == Active && record.trial.value.startedAt == Some(clock as int)
    {
      active := SaveTrial(trial.(state := Active, activeBootId := Some(bootId), startedAt := Some(clock as int),
                                 deadline := Some(clock + CONFIRM_SECONDS)));
    }

    /** Trial `id` runs, unconfirmed, in its own verified and healthy boot. */
    predicate Confirmable(id: nat)
      reads this`machine, this`record, this`bootId
    {
      && machine.observable && machine.healthy && !machine.safeMode
      && record.trial.Some? && ValidTrial(record.trial.value)
      && var t := record.trial.value;
         && t.state == Active && t.id == id && t.activeBootId == Some(bootId)
         && machine.boot.tryboot && machine.boot.configuredMhz == t.mhz
         && Verified(t, machine.boot, machine) && machine.tryboot == Some(t.candidate)
    }

    /**
     `confirm_trial`: one more step of frequency, on timely visible confirmation of the running
     trial; a still and uninterrupted call confirms exactly that.
     */
    method ConfirmTrial(id: nat, visible: bool) returns (o: Outcome)
      requires Valid()
      modifies this`machine, this`clock, this`cpu, this`record, this`power, this`confirmations
      ensures Valid() && SameTrial()
      ensures o == Ok ==>
                && confirmations == old(confirmations) + 1 && visible
                && old(record).trial.Some? && var t := old(record).trial.value;
                && ValidTrial(t) && t.state == Active && t.id == id
                && t.activeBootId == Some(bootId) && old(clock) < Deadline(t)
                && record.trial == Some(t.(state := Confirmed))
                && record.profile == Some(Profile(t.mhz, t.config, t.platform, t.id))
      ensures o != Ok ==> record == old(record) && confirmations == old(confirmations)
      ensures Still() && old(power) >= 1 ==>
                (o == Ok <==> visible && old(Confirmable(id)) && clock < old(record).trial.value.deadline.value)
    {
      Outside();
      if !machine.observable { return Raised(UnsupportedHost); }
      if record.trial.None? || record.trial.value.state != Active { return Raised(Rejected); }
      var trial := record.trial.value;
      Accepted();
      if !visible || trial.id != id || !machine.boot.tryboot || trial.activeBootId != Some(bootId)
         || machine.boot.configuredMhz != trial.mhz || machine.boot.platform != trial.platform || machine.safeMode
         || clock >= trial.deadline.value || !Verified(trial, machine.boot, machine)
         || machine.tryboot != Some(trial.candidate) {
        return Raised(Rejected);
      }
      if !machine.healthy { return Raised(Unhealthy); }
      var promoted := Promote(trial);
      return if promoted then Ok else Failed;
    }

    /** The confirmed trial becomes the profile that the next trial may step up from. */
    method Promote(trial: Trial) returns (promoted: bool)
      requires Valid() && record.trial == Some(trial) && trial.state == Active
      modifies this`record, this`power, this`confirmations
      ensures Valid()
      ensures promoted == (old(power) > 0)
      ensures if promoted then
                && confirmations == old(confirmations) + 1
                && record == old(record).(trial := Some(trial.(state := Confirmed)),
                                          profile := Some(Profile(trial.mhz, trial.config, trial.platform, trial.id)))
              else confirmations == old(confirmations) && record == old(record)
    {
      promoted := Step();
      if promoted {
        Open();
        record := record.(trial := Some(trial.(state := Confirmed)),
                          profile := Some(Profile(trial.mhz, trial.config, trial.platform, trial.id)));
        confirmations := confirmations + 1;
        Close();
      }
    }

    /** `set_safe_mode`: safe mode, and a retreat from any trial. */
    method SetSafeMode() returns (o: Outcome)
      requires Valid()
      modifies this`machine, this`clock, this`cpu, this`record, this`power, this`cpuWrites, this`normalReboots
      ensures Valid() && SameTrial()
      ensures o == Ok && record.trial.Some? ==>
                record.trial.value.state in {ManualRecovery, RollbackRequested, Restored}
      ensures Still() && o != Failed ==> machine.safeMode
      ensures Still() && old(power) >= UNINTERRUPTED && old(machine).observable && old(CpuIdle(record))
              && old(record).trial.Some? ==>
                o != Failed && record.trial.value.state == old(Retreated())
    {
      if !machine.safeMode {
        var alive := Step();
        if !alive { return Failed; }
        machine := machine.(safeMode := true);
      }
      Outside();
      if !machine.observable { return Raised(UnsupportedHost); }
      o := Rollback(Facts());
    }

    /** The frequency a trial was ever recorded with, whatever crashed and rebooted before. */
    lemma Bounded()
      requires Valid() && record.trial.Some?
      ensures STOCK_MHZ < record.trial.value.mhz <= MAX_MHZ
      ensures record.trial.value.mhz <= STOCK_MHZ + STEP_MHZ * (confirmations + 1)
      ensures forall e :: e in normalReboots ==> normalReboots[e] == 1
    {
      Open();
      assert ValidTrial(record.trial.value);
    }

    /** Every run: any calls, failing anywhere, with restarts in between. */
    method AnyHistory(calls: nat)
      requires Valid()
      modifies this
      ensures Valid()
    {
      for i := 0 to calls
        invariant Valid()
      {
        Between();
        var which: int := *;
        var n: int, s: string, b: bool := *, *, *;
        if which == 0 { Restart(); }
        else if which == 1 { var _ := SetCpu(s, n); }
        else if which == 2 { var _ := RestoreCpu(); }
        else if which == 3 { var _ := StartTrial(n); }
        else if which == 4 { var _ := Rollback(Facts()); }
        else if which == 5 { var _, _ := Guardian(); }
        else if which == 6 && n >= 0 { var _ := ConfirmTrial(n, b); }
        else { var _ := SetSafeMode(); }
      }
    }
  }
}
