/**
 The installer's attempt journal and the package transaction it guards
 (packaging/installer-bootstrap.py). The digest is injective: it is its preimage.

 A call has the `power` for some number of durable steps and then fails, by dying or by
 an I/O error; a file being created then is absent, torn or complete. Replacing a file
 is atomic. Calls are serialised by the installer's lock, and nobody else writes the stage.
 */
module AttemptJournal {
  import opened Bytes
  import opened PackageState
  import AptPlan

  // --------------------------------------------------------------- data model

  datatype Phase = Prepared | TransactionPrepared | TransactionStarted
                 | InstalledUnconfigured | ConfigureStarted | AwaitingDesktopRestart

  function Index(p: Phase): nat {
    match p
    case Prepared => 0
    case TransactionPrepared => 1
    case TransactionStarted => 2
    case InstalledUnconfigured => 3
    case ConfigureStarted => 4
    case AwaitingDesktopRestart => 5
  }

  datatype Binding = Binding(artifact: string, version: string, account: string)

  /** Bytes of a journal file; JSON that lacks its final newline still parses. */
  datatype Raw = Canonical(record: Record) | Unterminated(record: Record) | Torn

  datatype Digest = Sha256(of: Raw)

  datatype Record = Record(revision: int, previous: Option<Digest>, binding: Binding, phase: Phase,
                           incomplete: bool, baseline: Inventory, newPackages: Option<seq<Addition>>)

  const MAX_REVISION := 128

  function Parse(raw: Raw): Option<Record> {
    if raw.Torn? then None else Some(raw.record)
  }

  /** What creating a file with this content may leave behind when it fails half-way. */
  predicate Partial(torn: Raw, content: Raw) {
    torn == Torn || (content.Canonical? && torn == Unterminated(content.record))
  }

  /** `_validate_result` */
  predicate ValidRecord(r: Record, binding: Binding) {
    && 1 <= r.revision <= MAX_REVISION && r.binding == binding
    && (r.revision == 1 <==> r.previous.None?)
    && ValidInventory(r.baseline) && Fresh(r.baseline)
    && if r.phase == Prepared then r.newPackages.None?
       else r.newPackages.Some? && ValidAdditions(r.newPackages.value, r.baseline, binding.version)
  }

  /** `_journal_pair` */
  predicate Pair(previous: Record, current: Record, previousRaw: Raw) {
    && current.revision == previous.revision + 1 && current.previous == Some(Sha256(previousRaw))
    && current.baseline == previous.baseline
    && (previous.newPackages.Some? ==> current.newPackages == previous.newPackages)
    && 0 <= Index(current.phase) - Index(previous.phase) <= 1
  }

  // ------------------------------------------------------------------ chains

  /** `raw` may be committed after `history`. */
  predicate Follows(history: seq<Raw>, raw: Raw, binding: Binding) {
    && Parse(raw).Some? && ValidRecord(raw.record, binding)
    && if history == [] then raw.record.revision == 1
       else !history[|history| - 1].Torn? && Pair(history[|history| - 1].record, raw.record, history[|history| - 1])
  }

  predicate FollowsAt(history: seq<Raw>, i: nat, binding: Binding)
    requires i < |history|
  {
    Follows(history[..i], history[i], binding)
  }

  /** Everything ever committed, oldest first, each following the ones before. */
  predicate Linked(history: seq<Raw>, binding: Binding) {
    forall i: nat :: i < |history| ==> FollowsAt(history, i, binding)
  }

  lemma LinkedPair(history: seq<Raw>, binding: Binding, i: nat)
    requires Linked(history, binding) && i + 1 < |history|
    ensures !history[i].Torn? && !history[i + 1].Torn? && Pair(history[i].record, history[i + 1].record, history[i])
  {
    assert FollowsAt(history, i + 1, binding);
    assert history[..i + 1][i] == history[i];
  }

  lemma {:induction false} Revisions(history: seq<Raw>, binding: Binding, i: nat)
    requires Linked(history, binding) && i < |history|
    ensures !history[i].Torn? && history[i].record.revision == i + 1
    decreases i
  {
    if i == 0 {
      assert FollowsAt(history, 0, binding);
    } else {
      Revisions(history, binding, i - 1);
      LinkedPair(history, binding, i - 1);
    }
  }

  /** The phase never decreases and rises by at most one per revision; baseline and plan stay. */
  lemma {:induction false} PhasesClimb(history: seq<Raw>, binding: Binding, i: nat, j: nat)
    requires Linked(history, binding) && i <= j < |history|
    ensures !history[i].Torn? && !history[j].Torn?
    ensures var a, b := history[i].record, history[j].record;
            && Index(a.phase) <= Index(b.phase) <= Index(a.phase) + (j - i)
            && a.baseline == b.baseline && (a.newPackages.Some? ==> b.newPackages == a.newPackages)
    decreases j
  {
    if i < j {
      PhasesClimb(history, binding, i, j - 1);
      LinkedPair(history, binding, j - 1);
    } else {
      Revisions(history, binding, j);
    }
  }

  /** The record of revision `k` in a chain headed by `head`. */
  function RecordAt(head: Record, archive: map<nat, Raw>, k: nat): Option<Record> {
    if k == head.revision then Some(head) else if k in archive then Parse(archive[k]) else None
  }

  predicate LinkAt(head: Record, archive: map<nat, Raw>, k: nat, binding: Binding) {
    && RecordAt(head, archive, k).Some? && RecordAt(head, archive, k + 1).Some? && k in archive
    && ValidRecord(RecordAt(head, archive, k).value, binding)
    && Pair(RecordAt(head, archive, k).value, RecordAt(head, archive, k + 1).value, archive[k])
  }

  /** `head` heads a complete archived chain down to revision 1. */
  predicate Heads(head: Record, archive: map<nat, Raw>, binding: Binding) {
    ValidRecord(head, binding) && forall k :: 1 <= k < head.revision ==> LinkAt(head, archive, k, binding)
  }

  /** The archive holds every committed revision before the last. */
  predicate Archived(history: seq<Raw>, archive: map<nat, Raw>) {
    forall i :: 1 <= i < |history| ==> i in archive && archive[i] == history[i - 1]
  }

  /** The journal after any crash. */
  ghost predicate Sound(history: seq<Raw>, archive: map<nat, Raw>, result: Option<Raw>, pending: Option<Raw>,
                        binding: Binding)
  {
    && Linked(history, binding) && Archived(history, archive)
    && result == (if history == [] then None else Some(history[|history| - 1]))
    && (forall k :: k in archive ==> 1 <= k <= |history|)
    && (forall raw :: pending == Some(raw) && !raw.Torn? ==> Follows(history, raw, binding))
  }

  /** The last revision is archived too. */
  predicate LastArchived(history: seq<Raw>, archive: map<nat, Raw>) {
    history != [] ==> |history| in archive && archive[|history|] == history[|history| - 1]
  }

  lemma SoundExtend(history: seq<Raw>, archive: map<nat, Raw>, result: Option<Raw>, raw: Raw, binding: Binding)
    requires Sound(history, archive, result, Some(raw), binding) && !raw.Torn? && LastArchived(history, archive)
    ensures Sound(history + [raw], archive, Some(raw), None, binding)
  {
    assert Follows(history, raw, binding);
    var all := history + [raw];
    forall i: nat | i < |all| ensures FollowsAt(all, i, binding) {
      assert all[..i] == history[..i];
      if i < |history| { assert FollowsAt(history, i, binding); } else { assert history[..i] == history; }
    }
  }

  lemma LinkedHeads(history: seq<Raw>, archive: map<nat, Raw>, binding: Binding)
    requires Linked(history, binding) && history != [] && Archived(history, archive)
    ensures !history[|history| - 1].Torn? && history[|history| - 1].record.revision == |history|
    ensures Heads(history[|history| - 1].record, archive, binding)
  {
    var n := |history| - 1;
    Revisions(history, binding, n);
    assert FollowsAt(history, n, binding);
    forall k | 1 <= k < |history| ensures LinkAt(history[n].record, archive, k, binding) {
      LinkedAt(history, archive, binding, k);
    }
  }

  lemma LinkedAt(history: seq<Raw>, archive: map<nat, Raw>, binding: Binding, k: nat)
    requires Linked(history, binding) && Archived(history, archive) && 1 <= k < |history|
    ensures !history[|history| - 1].Torn? && LinkAt(history[|history| - 1].record, archive, k, binding)
  {
    Revisions(history, binding, |history| - 1);
    Revisions(history, binding, k - 1);
    assert FollowsAt(history, k - 1, binding);
    LinkedPair(history, binding, k - 1);
    assert archive[k] == history[k - 1];
    assert k + 1 < |history| ==> archive[k + 1] == history[k];
  }

  lemma HeadsExtend(head: Record, raw: Raw, next: Record, archive: map<nat, Raw>, binding: Binding)
    requires Heads(head, archive, binding) && Parse(raw) == Some(head)
    requires ValidRecord(next, binding) && Pair(head, next, raw)
    ensures Heads(next, archive[head.revision := raw], binding)
  {
    var after := archive[head.revision := raw];
    forall k | 1 <= k < next.revision ensures LinkAt(next, after, k, binding) {
      if k < head.revision { assert LinkAt(head, archive, k, binding); }
    }
  }

  // -------------------------------------------------------------- transaction

  /** A recorded plan, on its baseline. */
  datatype Recorded = Recorded(baseline: Inventory, additions: seq<Addition>)

  /** One real package transaction: what was installed when, authorised by which revision. */
  datatype Issue = Issue(inventory: Inventory, plan: AptPlan.Plan, revision: nat)

  /** What was last seen and last simulated, and after how many revisions. */
  datatype Looks = Looks(rows: Option<Inventory>, seenAfter: nat, plan: Option<AptPlan.Plan>, simulatedAfter: nat)

  datatype Loaded = Found(record: Option<Record>) | LoadRefused | LoadFailed

  datatype Saved = SavedAs(record: Record) | SaveRefused | SaveFailed

  datatype Writing = Wrote | WriteRefused | WriteFailed

  datatype Flow = Go | Raised | Died

  datatype Ending = Completed | Incomplete | Refused | Dead

  /** What the package manager prints for a simulation, and makes of the packages, where nothing interferes. */
  datatype Manager = Manager(simulated: Inventory -> seq<AptPlan.Line>,
                             installed: (Inventory, AptPlan.Plan) -> Inventory)

  /** The invariants of an attempt, one by one. */
  datatype Law = Chained | Witnessed | Once

  class Attempt {
    const binding: Binding
    const oversized: Record -> bool  // its text would exceed the bound for a journal
    const manager: Manager
    var packages: Inventory
    var smooth: bool                 // during this call no check refuses, and nobody else touches the packages
    var result: Option<Raw>
    var pending: Option<Raw>
    var archive: map<nat, Raw>
    var power: nat
    ghost var committed: seq<Raw>
    ghost var sightings: map<Recorded, Inventory>  // plans seen complete, and in which inventory
    ghost var inspected: set<Inventory>            // everything a look at the packages returned
    ghost var issues: seq<Issue>
    ghost var looked: Looks          // the last look at the packages and the last simulation

    /** The last committed record. */
    ghost function Last(): Option<Record>
      reads this`committed
    {
      if committed == [] then None else Parse(committed[|committed| - 1])
    }

    ghost predicate Journal()
      reads this`committed, this`archive, this`result, this`pending
    {
      Sound(committed, archive, result, pending, binding)
    }

    /** The planned packages have been seen complete. */
    ghost predicate Seen(baseline: Inventory, newPackages: Option<seq<Addition>>)
      reads this`sightings
    {
      newPackages.Some? && Recorded(baseline, newPackages.value) in sightings
    }

    /** From `installed_unconfigured` on, they have. */
    ghost predicate Evidenced(r: Record)
      reads this`sightings
    {
      Index(r.phase) >= 3 ==> Seen(r.baseline, r.newPackages)
    }

    /** An inventory that was really looked at shows the planned packages complete. */
    ghost predicate Supported(s: Recorded)
      requires s in sightings
      reads this`sightings, this`inspected
    {
      sightings[s] in inspected && PackageRelation(sightings[s], s.baseline, Some(s.additions)) == Complete
    }

    ghost predicate Evidence()
      reads this`committed, this`pending, this`sightings, this`inspected
    {
      && (forall raw :: raw in committed && !raw.Torn? ==> Evidenced(raw.record))
      && (pending.Some? && !pending.value.Torn? ==> Evidenced(pending.value.record))
      && (forall s :: s in sightings ==> Supported(s))
    }

    /** Authorised by a committed `package_transaction_started` revision with this very baseline and plan. */
    ghost predicate Authorised(x: Issue)
      reads this`committed
    {
      && 1 <= x.revision <= |committed| && !committed[x.revision - 1].Torn?
      && var r := committed[x.revision - 1].record;
         r.phase == TransactionStarted && r.baseline == x.inventory && r.newPackages == Some(x.plan.additions)
    }

    ghost predicate AtMostOnce()
      reads this`committed, this`issues
    {
      && |issues| <= 1
      && (forall x :: x in issues ==> Authorised(x))
      && (issues != [] ==> Last().Some? && Index(Last().value.phase) >= 2)
    }

    ghost predicate Kept(law: Law)
      reads this`committed, this`archive, this`result, this`pending, this`sightings, this`inspected, this`issues
    {
      match law
      case Chained => Journal()
      case Witnessed => Evidence()
      case Once => AtMostOnce()
    }

    ghost predicate Valid()
      reads this`committed, this`archive, this`result, this`pending, this`sightings, this`inspected, this`issues
    {
      forall law :: Kept(law)
    }

    lemma Open()
      requires Valid()
      ensures Journal() && Evidence() && AtMostOnce()
    {
      assert Kept(Chained) && Kept(Witnessed) && Kept(Once);
    }

    lemma LastEvidenced()
      requires Valid() && Last().Some?
      ensures Evidenced(Last().value)
    {
      Open();
      assert committed[|committed| - 1] in committed;
    }

    lemma Close()
      requires Journal() && Evidence() && AtMostOnce()
      ensures Valid()
    {
      forall law ensures Kept(law) {
        match law { case Chained => case Witnessed => case Once => }
      }
    }

    /** What stops every load until somebody repairs the stage: a torn file. */
    ghost predicate Damaged()
      reads this`committed, this`pending, this`archive
    {
      || pending == Some(Torn)
      || (committed != [] && |committed| in archive && archive[|committed|] != committed[|committed| - 1])
    }

    constructor (binding: Binding, oversized: Record -> bool, manager: Manager, packages: Inventory)
      ensures Valid() && this.binding == binding && this.oversized == oversized && this.manager == manager
      ensures this.packages == packages
      ensures committed == [] && issues == [] && !Damaged()
    {
      this.binding, this.oversized, this.manager, this.packages := binding, oversized, manager, packages;
      result, pending, archive, power, smooth := None, None, map[], 0, false;
      committed, sightings, inspected, issues, looked := [], map[], {}, [], Looks(None, 0, None, 0);
      new;
      Close();
    }

    method Step() returns (alive: bool)
      modifies this`power
      ensures alive <==> old(power) > 0
      ensures power == if alive then old(power) - 1 else 0
    {
      alive := power > 0;
      if alive { power := power - 1; }
    }

    /** A failed write has created the file, with all or some of its content. */
    twostate predicate Left(n: nat, raw: Raw)
      reads this`archive
    {
      && n !in old(archive) && n in archive && archive == old(archive)[n := archive[n]]
      && (archive[n] == raw || Partial(archive[n], raw))
    }

    /** `_write_identical` of the revision archived under `n`. */
    method Archive(n: nat, raw: Raw) returns (w: Writing)
      modifies this`archive, this`power
      ensures w == Wrote ==> archive == old(archive)[n := raw]
      ensures w == WriteRefused ==> n in archive && archive[n] != raw
      ensures w == WriteRefused ==> archive == old(archive)
      ensures n in old(archive) ==> archive == old(archive) && w == if archive[n] == raw then Wrote else WriteRefused
      ensures w == WriteFailed ==> old(power) == 0 && (archive == old(archive) || Left(n, raw))
      ensures old(power) <= power + 1 && (n in old(archive) ==> power == old(power))
      ensures old(Journal()) && n == |committed| > 0 ==> Journal()
    {
      if n in archive {
        if archive[n] != raw { return WriteRefused; }
        assert archive == archive[n := raw];
        return Wrote;
      }
      var alive := Step();
      if alive {
        archive := archive[n := raw];
        return Wrote;
      }
      var torn: Raw, begun: bool := *, *;
      if begun && (Partial(torn, raw) || torn == raw) { archive := archive[n := torn]; }
      return WriteFailed;
    }

    /** `os.replace` of the pending record over the current one. */
    method Replace() returns (alive: bool)
      requires pending.Some?
      modifies this`result, this`pending, this`power, this`committed
      ensures if alive then
                result == old(pending) && pending == None && committed == old(committed) + [old(pending).value]
              else
                result == old(result) && pending == old(pending) && committed == old(committed) && old(power) == 0
      ensures old(power) <= power + 1
      ensures old(Journal()) && !old(pending).value.Torn? && LastArchived(old(committed), archive) ==> Journal()
    {
      alive := Step();
      if alive {
        if Journal() && !pending.value.Torn? && LastArchived(committed, archive) {
          SoundExtend(committed, archive, result, pending.value, binding);
        }
        result, pending, committed := pending, None, committed + [pending.value];
      }
    }

    /** The chain below the current record, newest first. */
    method CheckChain(current: Record) returns (ok: bool)
      requires ValidRecord(current, binding)
      ensures ok <==> Heads(current, archive, binding)
    {
      var revision, later := current.revision - 1, current;
      while revision > 0
        invariant 0 <= revision < current.revision
        invariant RecordAt(current, archive, revision + 1) == Some(later)
        invariant forall k :: revision < k < current.revision ==> LinkAt(current, archive, k, binding)
      {
        var found := if revision in archive then Parse(archive[revision]) else None;
        if found.None? || !ValidRecord(found.value, binding) || !Pair(found.value, later, archive[revision]) {
          assert !LinkAt(current, archive, revision, binding);
          return false;
        }
        later := found.value;
        revision := revision - 1;
      }
      return true;
    }

    /**
     `_load_result`: whatever the stage holds, a record it returns heads a complete
     archived chain, and nothing is pending any more. After any crash it returns the last
     committed record, or the one that was pending and is now committed; it refuses exactly
     when the crash left a torn file, unless it fails itself, which takes less power than two
     durable steps.
     */
    method Load() returns (r: Loaded)
      modifies this`result, this`pending, this`archive, this`power, this`committed
      ensures r.Found? && r.record.Some? ==>
                Heads(r.record.value, archive, binding) && result.Some? && Parse(result.value) == r.record
      ensures r.Found? ==> pending == None
      ensures r == Found(None) ==> result == None && archive == map[]
      ensures r == LoadRefused ==> committed == old(committed) && pending == old(pending)
      ensures old(Journal()) ==> Journal()
      ensures old(Journal()) && r.Found? ==> r.record == Last() && !Damaged()
      ensures old(Journal()) && r != LoadFailed ==> (r == LoadRefused <==> old(Damaged()))
      ensures (r == LoadFailed ==> old(power) < 2) && old(power) <= power + 2
      ensures old(Journal()) ==> Advanced(r.Found?)
    {
      var ok, current := Current();
      if !ok { return LoadRefused; }
      if pending.None? { return Found(current); }
      r := Recover(current);
    }

    /** The committed record with its chain, if the stage holds just that and perhaps something pending. */
    method Current() returns (ok: bool, current: Option<Record>)
      ensures ok ==> current == if result.Some? then Parse(result.value) else None
      ensures ok && current.None? ==> result.None? && archive == map[]
      ensures ok && current.Some? ==>
                && Heads(current.value, archive, binding)
                && (current.value.revision in archive ==> Some(archive[current.value.revision]) == result)
      ensures Journal() ==>
                (ok <==> (committed != [] && |committed| in archive ==>
                            archive[|committed|] == committed[|committed| - 1]))
    {
      if Journal() && committed != [] { LinkedHeads(committed, archive, binding); }
      current := None;
      if result.Some? {
        current := Parse(result.value);
        if current.None? || !ValidRecord(current.value, binding) { return false, current; }
        ok := CheckChain(current.value);
        if !ok { return; }
        var n := current.value.revision;
        if n in archive && archive[n] != result.value { return false, current; }
      }
      ok := forall k :: k in archive ==> current.Some? && 1 <= k <= current.value.revision;
    }

    /** Nothing was committed, or just what was pending. */
    twostate predicate Advanced(found: bool) reads this {
      && (pending == None || pending == old(pending))
      && (committed == old(committed)
          || (found && old(pending).Some? && !old(pending).value.Torn?
              && committed == old(committed) + [old(pending).value]))
    }

    /** The end of `_load_result`: the pending record, checked, takes the place of the current one. */
    method Recover(current: Option<Record>) returns (r: Loaded)
      requires pending.Some?
      requires current == if result.Some? then Parse(result.value) else None
      requires current.None? ==> result.None? && archive == map[]
      requires current.Some? ==>
                 && Heads(current.value, archive, binding)
                 && (current.value.revision in archive ==> archive[current.value.revision] == result.value)
      modifies this`result, this`pending, this`archive, this`power, this`committed
      ensures r.Found? ==> r.record.Some? && Heads(r.record.value, archive, binding)
                           && result.Some? && Parse(result.value) == r.record && pending == None
      ensures r == LoadRefused ==> committed == old(committed) && pending == old(pending)
      ensures old(Journal()) ==> Journal()
      ensures old(Journal()) && r.Found? ==> r.record == Last()
      ensures old(Journal()) && r != LoadFailed ==> (r == LoadRefused <==> old(pending) == Some(Torn))
      ensures (r == LoadFailed ==> old(power) < 2) && old(power) <= power + 2
      ensures old(Journal()) ==> Advanced(r.Found?)
      ensures old(Journal()) && r.Found? ==> !Damaged()
    {
      if Journal() && committed != [] { Revisions(committed, binding, |committed| - 1); }
      var proposed := Parse(pending.value);
      if proposed.None? || !ValidRecord(proposed.value, binding) { return LoadRefused; }
      if current.None? {
        if proposed.value.revision != 1 { return LoadRefused; }
      } else {
        if !Pair(current.value, proposed.value, result.value) { return LoadRefused; }
        HeadsExtend(current.value, result.value, proposed.value, archive, binding);
      }
      r := Promote(current, proposed.value);
    }

    /** The current record is archived, and the pending one replaces it. */
    method Promote(current: Option<Record>, proposed: Record) returns (r: Loaded)
      requires pending.Some? && Parse(pending.value) == Some(proposed)
      requires current == if result.Some? then Parse(result.value) else None
      requires current.Some? ==>
                 && result.Some? && current.value.revision >= 1
                 && Heads(proposed, archive[current.value.revision := result.value], binding)
                 && (current.value.revision in archive ==> archive[current.value.revision] == result.value)
      requires current.None? ==> Heads(proposed, archive, binding)
      requires Journal() ==> Follows(committed, pending.value, binding)
                             && (if current.Some? then current.value.revision == |committed| > 0 else committed == [])
      modifies this`result, this`pending, this`archive, this`power, this`committed
      ensures r == Found(Some(proposed)) || (r == LoadFailed && old(power) < 2)
      ensures old(power) <= power + 2
      ensures old(Journal()) && r.Found? ==> !Damaged()
      ensures if r.Found? then
                && Heads(proposed, archive, binding) && result == old(pending) && pending == None
                && committed == old(committed) + [old(pending).value]
              else pending == old(pending) && committed == old(committed)
      ensures old(Journal()) ==> Journal()
    {
      if current.Some? {
        var w := Archive(current.value.revision, result.value);
        if w != Wrote { return LoadFailed; }
      }
      var alive := Replace();
      return if alive then Found(Some(proposed)) else LoadFailed;
    }

    /** The record in its place at the end of the chain. */
    ghost function Next(record: Record): Record
      reads this`committed
    {
      record.(revision := |committed| + 1,
              previous := if committed == [] then None else Some(Sha256(committed[|committed| - 1])))
    }

    /** It may be the next one committed. */
    ghost predicate Fitting(record: Record)
      reads this`committed
    {
      Follows(committed, Canonical(Next(record)), binding) && !oversized(Next(record))
    }

    /**
     `_save_result`: recovers what is pending, archives the current record, and commits
     the new one under the next revision, unless it is refused or fails on the way. With
     nothing pending it refuses exactly a torn archive and a record that does not fit, and
     it fails only on less power than five durable steps.
     */
    method Save(record: Record) returns (s: Saved)
      requires Journal()
      modifies this`result, this`pending, this`archive, this`power, this`committed
      ensures Journal() && old(committed) <= committed
      ensures s.SavedAs? ==>
                && Same(s.record, record) && pending == None
                && committed != [] && committed[|committed| - 1] == Canonical(s.record)
                && (old(pending).None? ==> committed == old(committed) + [Canonical(s.record)])
      ensures forall i :: |old(committed)| <= i < |committed| && !committed[i].Torn? ==> OldOrNew(committed[i], record)
      ensures pending.Some? && !pending.value.Torn? ==> OldOrNew(pending.value, record)
      ensures s == SaveFailed ==> old(power) < 5
      ensures old(pending).None? && s != SaveFailed ==> (s == SaveRefused <==> old(Damaged() || !Fitting(record)))
      ensures s.SavedAs? ==> !Damaged() && old(power) <= power + 5
    {
      var loaded := Load();
      if loaded == LoadRefused { return SaveRefused; }
      if loaded == LoadFailed { return SaveFailed; }
      s := Append(record);
    }

    /** `_save_result` once nothing is pending. */
    method Append(record: Record) returns (s: Saved)
      requires Journal() && pending == None && !Damaged()
      modifies this`result, this`pending, this`archive, this`power, this`committed
      ensures Journal()
      ensures s == SaveFailed ==> old(power) < 3
      ensures s != SaveFailed ==> (s == SaveRefused <==> !old(Fitting(record)))
      ensures s.SavedAs? ==>
                Same(s.record, record) && pending == None && committed == old(committed) + [Canonical(s.record)]
      ensures !s.SavedAs? ==> committed == old(committed)
      ensures pending.Some? && !pending.value.Torn? ==> Same(pending.value.record, record)
      ensures s.SavedAs? ==> !Damaged() && old(power) <= power + 3
    {
      var previous := if result.Some? then Parse(result.value) else None;
      NextFollows(record);
      var next := record.(revision := if previous.Some? then previous.value.revision + 1 else 1,
                          previous := if previous.Some? then Some(Sha256(result.value)) else None);
      if next.binding != binding || !ValidRecord(next, binding) { return SaveRefused; }
      if previous.Some? && !Pair(previous.value, next, result.value) { return SaveRefused; }
      s := Commit(next);
    }

    /** The current record is the last one committed. */
    lemma LastRevision()
      requires Journal()
      ensures committed == [] <==> result == None
      ensures committed != [] ==>
                && result == Some(committed[|committed| - 1]) && !result.value.Torn?
                && result.value.record.revision == |committed|
    {
      if committed != [] { Revisions(committed, binding, |committed| - 1); }
    }

    lemma NextFollows(record: Record)
      requires Journal()
      ensures result.Some? ==> !result.value.Torn?
      ensures Next(record) == record.(revision := if result.Some? then result.value.record.revision + 1 else 1,
                                      previous := if result.Some? then Some(Sha256(result.value)) else None)
      ensures Follows(committed, Canonical(Next(record)), binding)
              <==> ValidRecord(Next(record), binding)
                   && (result.Some? ==> Pair(result.value.record, Next(record), result.value))
    {
      LastRevision();
    }

    /** The writes of `_save_result`. */
    method Commit(next: Record) returns (s: Saved)
      requires Journal() && pending == None && !Damaged() && Follows(committed, Canonical(next), binding)
      modifies this`result, this`pending, this`archive, this`power, this`committed
      ensures Journal()
      ensures s == SavedAs(next) || (s == SaveRefused && oversized(next)) || (s == SaveFailed && old(power) < 3)
      ensures oversized(next) ==> s != SavedAs(next)
      ensures if s == SavedAs(next) then committed == old(committed) + [Canonical(next)] && pending == None
              else committed == old(committed)
      ensures pending.Some? && !pending.value.Torn? ==> pending.value.record == next
      ensures s == SavedAs(next) ==> !Damaged() && old(power) <= power + 3
    {
      LastRevision();
      if result.Some? {
        var archived := ArchiveLast();
        if !archived { return SaveFailed; }
      }
      if oversized(next) { return SaveRefused; }
      s := Publish(next);
    }

    /** The last committed record is archived before it is replaced. */
    method ArchiveLast() returns (archived: bool)
      requires Journal() && !Damaged() && result.Some?
      modifies this`archive, this`power
      ensures Journal() && old(power) <= power + 1
      ensures if archived then LastArchived(committed, archive) else old(power) == 0
    {
      LastRevision();
      var w := Archive(result.value.record.revision, result.value);
      return w == Wrote;
    }

    /** The same record up to its place in the chain. */
    static predicate Same(r: Record, record: Record) {
      r == record.(revision := r.revision, previous := r.previous)
    }

    /** What was pending before, or the record being saved. */
    twostate predicate OldOrNew(raw: Raw, record: Record)
      requires !raw.Torn?
      reads this
    {
      old(pending) == Some(raw) || Same(raw.record, record)
    }

    /** The last two writes of `_save_result`. */
    method Publish(next: Record) returns (s: Saved)
      requires Journal() && pending == None && Follows(committed, Canonical(next), binding)
      requires LastArchived(committed, archive)
      modifies this`result, this`pending, this`power, this`committed
      ensures Journal()
      ensures s == SavedAs(next) ==> committed == old(committed) + [Canonical(next)] && pending == None
      ensures s == SavedAs(next) || (s == SaveFailed && committed == old(committed) && old(power) < 2)
      ensures pending.Some? && !pending.value.Torn? ==> pending.value.record == next
      ensures s == SavedAs(next) ==> !Damaged() && old(power) <= power + 2
    {
      var alive := Propose(next);
      if !alive { return SaveFailed; }
      alive := Replace();
      return if alive then SavedAs(next) else SaveFailed;
    }

    /** The pending file is created. */
    method Propose(next: Record) returns (alive: bool)
      requires Journal() && pending == None && Follows(committed, Canonical(next), binding)
      modifies this`pending, this`power
      ensures Journal() && (alive ==> pending == Some(Canonical(next)))
      ensures alive == (old(power) > 0) && old(power) <= power + 1
      ensures pending.Some? && !pending.value.Torn? ==> pending.value.record == next
    {
      alive := Step();
      if alive {
        pending := Some(Canonical(next));
      } else {
        var torn: Raw, begun: bool := *, *;
        if begun && Partial(torn, Canonical(next)) { pending := Some(torn); }
      }
    }

    // ------------------------------------------------------------ execution

    /** `_save_result` as `_execute` sees it: a failure is the process's end or an exception. */
    method Keep(record: Record) returns (flow: Flow, kept: Record)
      requires Valid() && Evidenced(record)
      modifies this`result, this`pending, this`archive, this`power, this`committed
      ensures Valid() && old(committed) <= committed && Same(kept, record)
      ensures flow == Go ==> pending == None && Last() == Some(kept)
      ensures flow == Go && old(pending).None? ==> committed == old(committed) + [Canonical(kept)]
      ensures flow == Go ==> !Damaged() && old(power) <= power + 5
      ensures old(Room(1) && Fitting(record)) ==> flow == Go
    {
      Open();
      var s := Save(record);
      SaveKeeps(record);
      match s
      case SavedAs(r) => return Go, r;
      case SaveRefused => return Raised, record;
      case SaveFailed =>
        var dead: bool := *;
        return if dead then Died else Raised, record;
    }

    /** The next phase of the attempt; `n` more revisions are to come. */
    method Advance(next: Record, ghost n: nat) returns (flow: Flow, kept: Record)
      requires Valid() && Evidenced(next) && pending == None && Evolves(Last(), next)
      modifies this`result, this`pending, this`archive, this`power, this`committed
      ensures Valid() && old(committed) <= committed && Same(kept, next)
      ensures flow == Go ==> pending == None && Last() == Some(kept) && |committed| == |old(committed)| + 1
      ensures old(Able(n + 1)) ==> flow == Go && Able(n)
    {
      if Able(n + 1) {
        assert Room(n + 1) && Room(1);
        EvolvesFits(next);
      }
      flow, kept := Keep(next);
      assert old(Room(n + 1)) ==> Room(n);
    }

    /** The same attempt in the same or the next phase. */
    method AdvanceTo(record: Record, phase: Phase, ghost n: nat) returns (flow: Flow, kept: Record)
      requires Valid() && pending == None && Last() == Some(record) && record.newPackages.Some?
      requires record.phase != Prepared && phase != Prepared && 0 <= Index(phase) - Index(record.phase) <= 1
      requires Evidenced(record.(phase := phase))
      modifies this`result, this`pending, this`archive, this`power, this`committed
      ensures Valid() && old(committed) <= committed && Same(kept, record.(phase := phase, incomplete := false))
      ensures flow == Go ==> pending == None && Last() == Some(kept) && |committed| == |old(committed)| + 1
      ensures old(Able(n + 1)) ==> flow == Go && Able(n)
    {
      LastEvolves(record, phase);
      flow, kept := Advance(record.(phase := phase, incomplete := false), n);
    }

    lemma Spare(n: nat)
      requires Able(n + 1)
      ensures Able(n)
    {
      assert Room(n + 1) && Room(n);
    }

    lemma Spares()
      requires Able(5)
      ensures Able(3)
    {
      Spare(4);
      Spare(3);
    }

    twostate lemma SaveKeeps(record: Record)
      requires old(Journal() && Evidence() && AtMostOnce()) && Journal() && old(Evidenced(record))
      requires old(committed) <= committed
      requires issues == old(issues) && sightings == old(sightings) && inspected == old(inspected)
      requires forall i :: |old(committed)| <= i < |committed| && !committed[i].Torn? ==> OldOrNew(committed[i], record)
      requires pending.Some? && !pending.value.Torn? ==> OldOrNew(pending.value, record)
      ensures Valid()
    {
      forall raw | raw in committed && !raw.Torn? ensures Evidenced(raw.record) {
        var i :| 0 <= i < |committed| && committed[i] == raw;
        if i < |old(committed)| {
          assert raw in old(committed);
        } else {
          assert OldOrNew(raw, record);
        }
      }
      IssuesKept();
      Close();
    }

    /** What was authorised stays authorised: the journal only grows, and phases only climb. */
    twostate lemma IssuesKept()
      requires old(AtMostOnce()) && old(Journal()) && Journal() && old(committed) <= committed && issues == old(issues)
      ensures AtMostOnce()
    {
      if issues != [] { PhasesClimb(committed, binding, |old(committed)| - 1, |committed| - 1); }
    }

    /** Nothing stands in the way of `n` more revisions. */
    ghost predicate Able(n: nat)
      reads this`smooth, this`power, this`committed, this`pending, this`archive
    {
      smooth && forall k: nat :: k == n ==> Room(k)
    }

    ghost predicate Room(n: nat)
      reads this`smooth, this`power, this`committed, this`pending, this`archive
    {
      && smooth && power >= 5 * n && |committed| + n <= MAX_REVISION && pending == None && !Damaged()
      && forall r :: !oversized(r)
    }

    /** `next` goes on from `r`, or begins an attempt. */
    predicate Evolves(r: Option<Record>, next: Record) {
      && next.binding == binding && ValidInventory(next.baseline) && Fresh(next.baseline)
      && (if next.phase == Prepared then next.newPackages.None?
          else next.newPackages.Some? && ValidAdditions(next.newPackages.value, next.baseline, binding.version))
      && match r
         case None => next.phase == Prepared
         case Some(so) =>
           && next.baseline == so.baseline && 0 <= Index(next.phase) - Index(so.phase) <= 1
           && (so.newPackages.Some? ==> next.newPackages == so.newPackages)
    }

    lemma EvolvesFits(next: Record)
      requires Valid() && Room(1) && Evolves(Last(), next)
      ensures Fitting(next)
    {
      Open();
      LastRevision();
      NextFollows(next);
    }

    /** The last record is valid; a later phase under the same plan goes on from it. */
    lemma LastEvolves(r: Record, phase: Phase)
      requires Valid() && Last() == Some(r) && phase != Prepared && r.newPackages.Some?
      requires r.phase != Prepared && 0 <= Index(phase) - Index(r.phase) <= 1
      ensures Evolves(Last(), r.(phase := phase, incomplete := false))
    {
      LastValid(r);
    }

    lemma LastValid(r: Record)
      requires Valid() && Last() == Some(r)
      ensures ValidRecord(r, binding)
    {
      Open();
      assert FollowsAt(committed, |committed| - 1, binding);
    }

    /** What a simulation on these packages announces, if it is accepted. */
    function Offer(rows: Inventory): Option<AptPlan.Plan> {
      var lines, q := manager.simulated(rows), AptPlan.Request(binding.version, InstalledVersions(rows));
      if AptPlan.Accepted(lines, q) then Some(AptPlan.PlanOf(AptPlan.Read(lines, |lines|))) else None
    }

    /** It offers this plan for these packages, and carries it out. */
    predicate Promise(rows: Inventory, plan: AptPlan.Plan) {
      && ValidInventory(rows) && Offer(rows) == Some(plan) && ValidInventory(manager.installed(rows, plan))
      && PackageRelation(manager.installed(rows, plan), rows, Some(plan.additions)) == Complete
    }

    ghost predicate Promising(rows: Inventory, plan: AptPlan.Plan) {
      forall p :: p == plan ==> Promise(rows, p)
    }

    predicate Relates(r: Record, rows: Inventory) {
      PackageRelation(rows, r.baseline, r.newPackages) == Complete
    }

    /** The packages that the record plans are complete. */
    ghost predicate Whole(r: Record, rows: Inventory) {
      forall i :: i == rows ==> Relates(r, i)
    }

    /** These packages are as an attempt needs them that stands at `resume`. */
    predicate Suits(resume: Option<Record>, rows: Inventory) {
      && ValidInventory(rows)
      && match resume
         case None => Fresh(rows) && Offer(rows).Some? && Promise(rows, Offer(rows).value)
         case Some(r) =>
           if Index(r.phase) >= 2 then Relates(r, rows)
           else && rows == r.baseline && Offer(rows).Some? && Promise(rows, Offer(rows).value)
                && (r.newPackages.Some? ==> Offer(rows).value.additions == r.newPackages.value)
    }

    ghost predicate Ready(resume: Option<Record>)
      reads this`packages
    {
      forall i :: i == packages ==> Suits(resume, i)
    }

    lemma ReadyMeans(resume: Option<Record>)
      requires Ready(resume)
      ensures ValidInventory(packages) && (resume.None? ==> Fresh(packages))
    {
      assert Suits(resume, packages);
    }

    /** Having begun, an attempt still needs what it needed. */
    lemma ReadyFirst(r: Record)
      requires Ready(None) && r.phase == Prepared && r.baseline == packages && r.newPackages == None
      ensures Ready(Some(r))
    {
      assert Suits(None, packages);
    }

    /** A check of the host, the account, the locks, the payload or the maintenance journal. */
    method Check() returns (ok: bool)
      ensures smooth ==> ok
    {
      var refuses: bool := *;
      ok := smooth || !refuses;
    }

    /** `_package_state`: anybody may have changed the packages since the last look. */
    method Inspect() returns (rows: Option<Inventory>)
      requires Valid()
      modifies this`looked, this`inspected
      ensures Valid() && (rows.Some? ==> ValidInventory(rows.value) && rows.value in inspected)
      ensures looked == old(looked).(rows := rows, seenAfter := |committed|)
      ensures smooth ==> rows == if ValidInventory(packages) then Some(packages) else None
    {
      Open();
      var seen: Inventory := *;
      if smooth { seen := packages; }
      rows := if ValidInventory(seen) then Some(seen) else None;
      looked := looked.(rows := rows, seenAfter := |committed|);
      if rows.Some? { inspected := inspected + {seen}; }
      assert Evidence() by {
        forall x | x in sightings ensures Supported(x) { assert old(Supported(x)); }
      }
      Close();
    }

    /** A simulated installation on these rows. */
    method Simulate(rows: Inventory) returns (plan: Option<AptPlan.Plan>)
      modifies this`looked
      ensures plan.Some? ==> ValidAdditions(plan.value.additions, rows, binding.version)
      ensures looked == old(looked).(plan := plan, simulatedAfter := |committed|)
      ensures smooth ==> plan == Offer(rows)
    {
      var lines: seq<AptPlan.Line> := *;
      if smooth { lines := manager.simulated(rows); }
      plan := AptPlan.InspectInstallPlan(lines, AptPlan.Request(binding.version, InstalledVersions(rows)));
      if plan.Some? { AcceptedIsValid(lines, rows, binding.version); }
      looked := looked.(plan := plan, simulatedAfter := |committed|);
    }

    /**
     The real package transaction; it may fail half-way. The packages and the plan were
     looked at once more after the revision before `package_transaction_started`.
     */
    method Install(rows: Inventory, plan: AptPlan.Plan) returns (ok: bool)
      requires Valid() && issues == [] && committed != []
      requires Authorised(Issue(rows, plan, |committed|))
      requires looked == Looks(Some(rows), |committed| - 1, Some(plan), |committed| - 1)
      modifies this`issues, this`packages
      ensures Valid() && issues == [Issue(rows, plan, |committed|)]
      ensures smooth ==> ok && packages == manager.installed(rows, plan)
    {
      Open();
      issues := [Issue(rows, plan, |committed|)];
      Close();
      var fails: bool := *;
      ok, packages := smooth || !fails, *;
      if smooth { packages := manager.installed(rows, plan); }
    }

    /** The transaction was issued, once, on these packages and the plan of the record. */
    ghost predicate Issued(r: Record, actual: Inventory)
      reads this`issues, this`committed
    {
      && |issues| == 1 && issues[0].inventory == actual && issues[0].revision == |committed|
      && r.phase == TransactionStarted && r.newPackages == Some(issues[0].plan.additions)
    }

    /** The part of `_execute` that a phase before `package_transaction_started` allows. */
    method Transact(record: Record, actual: Inventory) returns (flow: Flow, r: Record, now: Inventory)
      requires Valid() && pending == None && Last() == Some(record) && Index(record.phase) < 2
      requires looked.rows == Some(actual) && actual in inspected
      modifies this`result, this`pending, this`archive, this`power, this`committed
      modifies this`issues, this`looked, this`inspected, this`packages
      ensures Valid() && old(committed) <= committed && Evidenced(r)
      ensures flow == Go ==> pending == None && Last() == Some(r) && r.phase == TransactionStarted
      ensures flow == Go ==> issues != [] && looked.rows == Some(now) && now in inspected
      ensures old(issues) == [] && (issues == [] || Issued(r, actual))
      ensures issues != [] && flow != Go ==> flow == Raised && Last() == Some(r)
      ensures old(Able(5) && packages == actual && Ready(Some(record))) ==>
                flow == Go && Able(3) && Whole(r, now)
    {
      LastEvidenced();
      NoIssue(record);
      var plan;
      r, now := record, actual;
      flow, plan := PlanFor(record, actual);
      if flow != Go { return; }
      flow, r := RecordPlan(record, plan);
      if flow != Go { return; }
      flow, r, now := Commence(r, actual, plan);
    }

    lemma NoIssue(record: Record)
      requires Valid() && Last() == Some(record) && Index(record.phase) < 2
      ensures issues == []
    {
      Open();
    }

    function WithPlan(record: Record, plan: AptPlan.Plan): Record {
      record.(newPackages := Some(plan.additions), phase := TransactionPrepared, incomplete := false)
    }

    lemma PlanEvolves(record: Record, plan: AptPlan.Plan)
      requires Valid() && Last() == Some(record) && Index(record.phase) < 2
      requires ValidAdditions(plan.additions, record.baseline, binding.version)
      requires record.newPackages.Some? ==> record.newPackages.value == plan.additions
      ensures Evolves(Last(), WithPlan(record, plan))
    {
      LastValid(record);
    }

    /** The plan is recorded before anything is done about it. */
    method RecordPlan(record: Record, plan: AptPlan.Plan) returns (flow: Flow, r: Record)
      requires Valid() && pending == None && Last() == Some(record) && Index(record.phase) < 2
      requires ValidAdditions(plan.additions, record.baseline, binding.version)
      requires record.newPackages.Some? ==> record.newPackages.value == plan.additions
      modifies this`result, this`pending, this`archive, this`power, this`committed
      ensures Valid() && old(committed) <= committed && Evidenced(r)
      ensures r.phase == TransactionPrepared && r.baseline == record.baseline && r.newPackages == Some(plan.additions)
      ensures flow == Go ==> pending == None && Last() == Some(r)
      ensures old(Able(5)) ==> flow == Go && Able(4)
    {
      PlanEvolves(record, plan);
      flow, r := Advance(WithPlan(record, plan), 4);
    }

    /** The unchanged packages, the checks, and the plan, which must be the recorded one if there is one. */
    method PlanFor(record: Record, actual: Inventory) returns (flow: Flow, plan: AptPlan.Plan)
      modifies this`looked
      ensures flow in {Go, Raised} && looked.rows == old(looked).rows
      ensures flow == Go ==>
                && actual == record.baseline && ValidAdditions(plan.additions, actual, binding.version)
                && (record.newPackages.Some? ==> record.newPackages.value == plan.additions)
      ensures smooth && packages == actual && Index(record.phase) < 2 && Ready(Some(record)) ==>
                flow == Go && Promising(actual, plan)
    {
      if Ready(Some(record)) { assert Suits(Some(record), packages); }
      flow, plan := Raised, AptPlan.Plan([], 0);
      if PackageRelation(actual, record.baseline, record.newPackages) != Unchanged { return; }
      var ok := Check();
      if !ok { return; }
      var found := Simulate(actual);
      if found.None? || (record.newPackages.Some? && record.newPackages.value != found.value.additions) { return; }
      flow, plan := Go, found.value;
    }

    /** The transaction itself, after one more look at the packages and one more simulation. */
    method Commence(record: Record, actual: Inventory, plan: AptPlan.Plan)
      returns (flow: Flow, r: Record, now: Inventory)
      requires Valid() && pending == None && Last() == Some(record) && record.phase == TransactionPrepared
      requires record.baseline == actual && record.newPackages == Some(plan.additions)
      modifies this`result, this`pending, this`archive, this`power, this`committed
      modifies this`issues, this`looked, this`inspected, this`packages
      ensures Valid() && old(committed) <= committed && Evidenced(r)
      ensures flow == Go ==> pending == None && Last() == Some(r) && r.phase == TransactionStarted
      ensures flow == Go ==> issues != [] && looked.rows == Some(now) && now in inspected
      ensures old(issues) == [] && (issues == [] || Issued(r, actual))
      ensures issues != [] && flow != Go ==> flow == Raised && Last() == Some(r)
      ensures old(Able(4) && packages == actual) && Promising(actual, plan) ==> flow == Go && Able(3) && Whole(r, now)
    {
      NoIssue(record);
      r, now := record, actual;
      var ok := Recheck(actual, plan);
      if !ok { return Raised, r, now; }
      flow, r := AdvanceTo(record, TransactionStarted, 3);
      if flow != Go { return; }
      ok, now := Perform(r, actual, plan);
      flow := if ok then Go else Raised;
    }

    /** The last look before the transaction: the packages and the plan are still the same. */
    method Recheck(actual: Inventory, plan: AptPlan.Plan) returns (same: bool)
      requires Valid()
      modifies this`looked, this`inspected
      ensures Valid() && (same ==> looked == Looks(Some(actual), |committed|, Some(plan), |committed|))
      ensures smooth && packages == actual && Promising(actual, plan) ==> same
    {
      if Promising(actual, plan) { assert Promise(actual, plan); }
      var ok := Check();
      var recent := Inspect();
      if !ok || recent != Some(actual) { return false; }
      var again := Simulate(actual);
      same := again == Some(plan);
    }

    /** The package manager is run, and the packages are looked at again. */
    method Perform(r: Record, actual: Inventory, plan: AptPlan.Plan) returns (ok: bool, now: Inventory)
      requires Valid() && issues == [] && Last() == Some(r)
      requires r.phase == TransactionStarted && r.baseline == actual && r.newPackages == Some(plan.additions)
      requires looked == Looks(Some(actual), |committed| - 1, Some(plan), |committed| - 1)
      modifies this`issues, this`looked, this`inspected, this`packages
      ensures Valid() && Issued(r, actual) && (ok ==> looked.rows == Some(now) && now in inspected)
      ensures smooth && Promising(actual, plan) ==> ok && Whole(r, now)
    {
      if Promising(actual, plan) { assert Promise(actual, plan); }
      ok := Install(actual, plan);
      var after := Inspect();
      ok, now := ok && after.Some?, if after.Some? then after.value else actual;
      assert old(smooth) && Promising(actual, plan) ==> Relates(r, now);
    }

    /** The rest of `_execute`, on packages that are complete. */
    method Configure(record: Record, actual: Inventory) returns (flow: Flow, r: Record)
      requires Valid() && pending == None && Last() == Some(record) && Index(record.phase) >= 2
      requires looked.rows == Some(actual) && actual in inspected
      modifies this`result, this`pending, this`archive, this`power, this`committed, this`sightings
      ensures Valid() && old(committed) <= committed && Evidenced(r)
      ensures flow == Go ==> Last() == Some(r) && r.phase == AwaitingDesktopRestart && !r.incomplete
      ensures old(Able(3)) && Whole(record, actual) ==> flow == Go
    {
      LastEvidenced();
      if Whole(record, actual) { assert Relates(record, actual); }
      r := record;
      var ok := Witness(r, actual);
      if !ok { return Raised, r; }
      ok := Check();
      if !ok { return Raised, r; }
      if Index(r.phase) < Index(InstalledUnconfigured) {
        flow, r := MarkInstalled(r);
        if flow != Go { return; }
      } else if Able(3) {
        Spare(2);
      }
      flow, r := Settle(r);
    }

    method MarkInstalled(record: Record) returns (flow: Flow, r: Record)
      requires Valid() && pending == None && Seen(record.baseline, record.newPackages)
      requires Last() == Some(record) && Index(record.phase) == 2
      modifies this`result, this`pending, this`archive, this`power, this`committed
      ensures Valid() && old(committed) <= committed && Index(r.phase) >= 3 && Seen(r.baseline, r.newPackages)
      ensures flow == Go ==> pending == None && Last() == Some(r)
      ensures old(Able(3)) ==> flow == Go && Able(2)
    {
      flow, r := AdvanceTo(record, InstalledUnconfigured, 2);
    }

    /** The configuration, between two revisions; a completed attempt is configured once more. */
    method Settle(record: Record) returns (flow: Flow, r: Record)
      requires Valid() && pending == None && Last() == Some(record) && Index(record.phase) >= 3
      requires Seen(record.baseline, record.newPackages)
      modifies this`result, this`pending, this`archive, this`power, this`committed
      ensures Valid() && old(committed) <= committed && Evidenced(r)
      ensures flow == Go ==> Last() == Some(r) && r.phase == AwaitingDesktopRestart && !r.incomplete
      ensures old(Able(2)) ==> flow == Go
    {
      var started := if record.phase != AwaitingDesktopRestart then ConfigureStarted else AwaitingDesktopRestart;
      flow, r := AdvanceTo(record, started, 1);
      if flow != Go { return; }
      var ok := Check();
      if !ok { return Raised, r; }
      flow, r := AdvanceTo(r, AwaitingDesktopRestart, 0);
    }

    /** Whether the packages, as just looked at, are complete; an unchanged or partial inventory needs review. */
    method Witness(r: Record, actual: Inventory) returns (ok: bool)
      requires Valid() && looked.rows == Some(actual) && actual in inspected
      modifies this`sightings
      ensures Valid()
      ensures ok <==> PackageRelation(actual, r.baseline, r.newPackages) == Complete
      ensures if ok then Seen(r.baseline, r.newPackages) else sightings == old(sightings)
    {
      ok := PackageRelation(actual, r.baseline, r.newPackages) == Complete;
      if ok {
        Open();
        sightings := sightings[Recorded(r.baseline, r.newPackages.value) := actual];
        assert Evidence() by {
          forall x | x in sightings ensures Supported(x) { assert x in old(sightings) ==> old(Supported(x)); }
        }
        Close();
      }
    }

    /** The first record of an attempt. */
    method Begin(actual: Inventory) returns (flow: Flow, r: Record)
      requires Valid() && pending == None && Last() == None && ValidInventory(actual) && Fresh(actual)
      modifies this`result, this`pending, this`archive, this`power, this`committed
      ensures Valid() && old(committed) <= committed
      ensures r.phase == Prepared && r.baseline == actual && r.newPackages == None
      ensures flow == Go ==> pending == None && Last() == Some(r)
      ensures old(Able(6)) ==> flow == Go && Able(5)
    {
      flow, r := Advance(Record(1, None, binding, Prepared, false, actual, None), 5);
    }

    /** The protected part of `_execute`; what it got to is what the failure is recorded on. */
    method Attempted(resume: Option<Record>) returns (flow: Flow, r: Option<Record>)
      requires Valid() && pending == None && Last() == resume
      modifies this`result, this`pending, this`archive, this`power, this`committed
      modifies this`issues, this`sightings, this`looked, this`inspected, this`packages
      ensures Valid() && old(committed) <= committed && (r.Some? ==> Evidenced(r.value))
      ensures flow == Go ==> r.Some? && Last() == r && r.value.phase == AwaitingDesktopRestart && !r.value.incomplete
      ensures old(Able(6) && Ready(resume)) ==> flow == Go
    {
      var now;
      flow, r, now := Opening(resume);
      if flow != Go { return; }
      var record := r.value;
      if Index(record.phase) < 2 {
        flow, record, now := Transact(record, now);
        r := Some(record);
        if flow != Go { return; }
      } else {
        assert Ready(r) && now == packages ==> Suits(r, now) && Relates(record, now);
        if Able(5) { Spares(); }
      }
      flow, record := Configure(record, now);
      r := Some(record);
    }

    /** The checks and the first look at the packages. */
    method Look() returns (ok: bool, now: Inventory)
      requires Valid()
      modifies this`looked, this`inspected
      ensures Valid() && (ok ==> ValidInventory(now) && looked.rows == Some(now) && now in inspected)
      ensures smooth && ValidInventory(packages) ==> ok && now == packages
    {
      ok := Check();
      var actual := Inspect();
      ok, now := ok && actual.Some?, if actual.Some? then actual.value else map[];
    }

    /** The first record, unless the attempt is resumed. */
    method Opening(resume: Option<Record>) returns (flow: Flow, r: Option<Record>, now: Inventory)
      requires Valid() && pending == None && Last() == resume
      modifies this`result, this`pending, this`archive, this`power, this`committed, this`looked, this`inspected
      ensures Valid() && old(committed) <= committed && (r.Some? ==> Evidenced(r.value))
      ensures flow == Go ==> r.Some? && pending == None && Last() == r && looked.rows == Some(now) && now in inspected
      ensures old(Able(6) && Ready(resume)) ==> flow == Go && Able(5) && now == packages && Ready(r)
    {
      if resume.Some? { LastEvidenced(); }
      if Ready(resume) { ReadyMeans(resume); }
      var ok;
      r := resume;
      ok, now := Look();
      if !ok { return Raised, r, now; }
      if r.None? {
        if !Fresh(now) { return Raised, r, now; }
        var first;
        flow, first := Begin(now);
        if Ready(None) && now == packages { ReadyFirst(first); }
        return flow, Some(first), now;
      }
      if Able(6) { Spare(5); }
      return Go, r, now;
    }

    /** `_execute`: a failure is recorded too, as far as the journal allows. */
    method Execute(resume: Option<Record>) returns (e: Ending)
      requires Valid() && pending == None && Last() == resume
      modifies this
      ensures Valid() && old(committed) <= committed
      ensures e == Completed ==>
                Last().Some? && Last().value.phase == AwaitingDesktopRestart && !Last().value.incomplete
      ensures old(Able(6) && Ready(resume)) ==> e == Completed
    {
      var flow, r := Attempted(resume);
      if flow == Go { return Completed; }
      if flow == Died { return Dead; }
      if r.Some? {
        power := *;
        var _, _ := Keep(r.value.(incomplete := true));
      }
      return Incomplete;
    }

    /** One start of the installer on this attempt, new or resumed. */
    method Run() returns (e: Ending)
      requires Valid()
      modifies this
      ensures Valid() && old(committed) <= committed
      ensures e == Completed ==>
                Last().Some? && Last().value.phase == AwaitingDesktopRestart && !Last().value.incomplete
      ensures old(Able(7) && Ready(Last())) ==> e == Completed
    {
      var loaded := Resume();
      match loaded
      case LoadRefused => return Refused;
      case LoadFailed => return Dead;
      case Found(resume) => e := Execute(resume);
    }

    /** What the journal holds, recovered. */
    method Resume() returns (loaded: Loaded)
      requires Valid()
      modifies this`result, this`pending, this`archive, this`power, this`committed
      ensures Valid() && old(committed) <= committed
      ensures loaded.Found? ==> pending == None && loaded.record == Last()
      ensures old(Able(7)) ==> loaded.Found? && Able(6) && Last() == old(Last())
    {
      Open();
      loaded := Load();
      LoadKeeps();
      assert old(Able(7)) ==> old(Room(7));
      assert old(Room(7)) ==> Room(6);
    }

    twostate lemma LoadKeeps()
      requires old(Journal() && Evidence() && AtMostOnce()) && Journal() && Advanced(pending == None)
      requires issues == old(issues) && sightings == old(sightings) && inspected == old(inspected)
      ensures Valid() && old(committed) <= committed
    {
      IssuesKept();
      Close();
    }

    /**
     Every run: however often the installer is started and wherever each start fails, the
     package transaction was issued at most once, on the recorded baseline and plan.
     */
    method AnyHistory(starts: nat)
      requires Valid()
      modifies this
      ensures Valid() && |issues| <= 1 && old(committed) <= committed
    {
      for i := 0 to starts
        invariant Valid() && old(committed) <= committed
      {
        power, smooth, packages := *, *, *;
        var _ := Run();
      }
      Open();
    }
  }
}
