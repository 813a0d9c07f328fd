/**
 The exclusive network lease (helper/network.py): discovery and connection under a durable
 baseline, restoration, and the availability of a Wi-Fi Display sink.

 Operations are serialised by the helper's lock. The backend may fail at every call, a
 journal write may fail before or after it took place, a cancellation may come at any
 time, and the process may die between any two steps.
 */
module Network {
  import opened Bytes

  // ------------------------------------------------------------ Wi-Fi Display

  /** A subelement of the WFD information element (section 5.1 of the Wi-Fi Display specification). */
  datatype Subelement = Subelement(kind: byte, body: seq<byte>)

  const MAX_WFD := 1024

  function Big(hi: byte, lo: byte): nat {
    hi * 256 + lo
  }

  /** A device information body: a primary or dual-role sink, available, with a control port. */
  predicate Describes(body: seq<byte>)
    requires |body| == 6
  {
    var flags := Big(body[0], body[1]);
    flags % 4 in {1, 3} && flags / 16 % 2 == 1 && Big(body[2], body[3]) != 0
  }

  /** What is left to decide from `cursor` on. */
  function Verdict(data: seq<byte>, available: bool): bool
    decreases |data|
  {
    if data == [] then available
    else if |data| < 3 then false
    else
      var size := Big(data[1], data[2]);
      if size > |data| - 3 then false
      else if data[0] == 0 then size == 6 && Verdict(data[9..], Describes(data[3..9]))
      else Verdict(data[3 + size..], available)
  }

  /** `sink_available` */
  method SinkAvailable(data: seq<byte>) returns (available: bool)
    ensures available == Available(data)
  {
    if |data| > MAX_WFD { return false; }
    var cursor: nat := 0;
    available := false;
    while cursor < |data|
      invariant cursor <= |data|
      invariant Verdict(data, false) == Verdict(data[cursor..], available)
    {
      ghost var rest := data[cursor..];
      if |data| - cursor < 3 { return false; }
      var kind, size := data[cursor], Big(data[cursor + 1], data[cursor + 2]);
      cursor := cursor + 3;
      if size > |data| - cursor { return false; }
      if kind == 0 {
        if size != 6 { return false; }
        var body := data[cursor..cursor + 6];
        assert rest[3..9] == body;
        available := Describes(body);
      }
      assert rest[3 + size..] == data[cursor + size..];
      cursor := cursor + size;
    }
    assert data[cursor..] == [];
  }

  predicate Available(data: seq<byte>) {
    |data| <= MAX_WFD && Verdict(data, false)
  }

  function EncodeOne(e: Subelement): seq<byte>
    requires |e.body| < 65536
  {
    [e.kind, (|e.body| / 256) as byte, (|e.body| % 256) as byte] + e.body
  }

  predicate Fits(elements: seq<Subelement>) {
    forall e :: e in elements ==> |e.body| < 65536 && (e.kind == 0 ==> |e.body| == 6)
  }

  function Encode(elements: seq<Subelement>): seq<byte>
    requires Fits(elements)
  {
    if elements == [] then [] else EncodeOne(elements[0]) + Encode(elements[1..])
  }

  /** What the last device information says, `before` if there is none. */
  function LastSays(elements: seq<Subelement>, before: bool): bool
    requires Fits(elements)
  {
    if elements == [] then before
    else LastSays(elements[1..], if elements[0].kind == 0 then Describes(elements[0].body) else before)
  }

  lemma {:induction false} VerdictOfEncoded(elements: seq<Subelement>, before: bool)
    requires Fits(elements)
    ensures Verdict(Encode(elements), before) == LastSays(elements, before)
    decreases |elements|
  {
    if elements != [] {
      var e, rest := elements[0], Encode(elements[1..]);
      var data := EncodeOne(e) + rest;
      assert e in elements;
      assert data[0] == e.kind && Big(data[1], data[2]) == |e.body|;
      assert data[3..3 + |e.body|] == e.body && data[3 + |e.body|..] == rest;
      VerdictOfEncoded(elements[1..], if e.kind == 0 then Describes(e.body) else before);
    }
  }

  lemma FirstEncodes(data: seq<byte>, size: nat)
    requires |data| >= 3 && size == Big(data[1], data[2]) <= |data| - 3
    ensures size < 65536 && EncodeOne(Subelement(data[0], data[3..3 + size])) + data[3 + size..] == data
  {
    assert data == data[..3] + data[3..3 + size] + data[3 + size..];
    assert data[..3] == [data[0], data[1], data[2]];
  }

  lemma {:induction false} VerdictDecodes(data: seq<byte>, before: bool) returns (elements: seq<Subelement>)
    requires Verdict(data, before)
    ensures Fits(elements) && Encode(elements) == data
    decreases |data|
  {
    if data == [] {
      elements := [];
    } else {
      var size := Big(data[1], data[2]);
      var e, rest := Subelement(data[0], data[3..3 + size]), data[3 + size..];
      var tail := VerdictDecodes(rest, if e.kind == 0 then Describes(e.body) else before);
      elements := [e] + tail;
      assert elements[0] == e && elements[1..] == tail;
      FirstEncodes(data, size);
    }
  }

  /** A sink is available exactly when the data encodes subelements whose last device information says so. */
  lemma AvailableMeans(data: seq<byte>)
    ensures Available(data) <==>
              |data| <= MAX_WFD
              && exists elements :: Fits(elements) && Encode(elements) == data && LastSays(elements, false)
  {
    if Available(data) {
      var elements := VerdictDecodes(data, false);
      VerdictOfEncoded(elements, false);
    }
    forall elements | Fits(elements) && Encode(elements) == data && LastSays(elements, false)
      ensures Verdict(data, false)
    {
      VerdictOfEncoded(elements, false);
    }
  }

  // -------------------------------------------------------------------- lease

  datatype Peer = Peer(name: string, address: string, wellNamed: bool, wellAddressed: bool, wfd: seq<byte>)

  predicate ValidPeer(p: Peer) {
    p.wellNamed && p.wellAddressed && Available(p.wfd)
  }

  datatype RecordState = Preparing | Found | Joining | Joined | RestoreFailed | Restored

  /** The journal: `snapshot` is the network's state before the first change. */
  datatype Record = Record(state: RecordState, snapshot: int, checkpoint: Option<int>, connection: Option<int>)

  datatype State = Idle | Discovering | Discovered | Connecting | Connected | Restoring | RestoreRequired

  datatype Outcome = Ok | Busy | NeedsRestore | NoLease | RetryRequired | StaleCandidate | Failed | Died

  const MAX_FAILURES := 3
  const LEASE_SECONDS := 60
  const MAX_PEERS := 64

  predicate Closed(r: Option<Record>) {
    r.None? || r.value.state == Restored
  }

  class NetworkHelper {
    var owner: Option<nat>
    var deadline: int
    var cancelled: bool
    var candidates: map<nat, Peer>
    var record: Option<Record>
    var failures: nat
    var state: State
    var ids: nat
    var durable: Option<Record>      // the journal file
    var clock: int
    var network: int                 // what the backend changes
    ghost var original: int          // the network before the transaction
    var changed: bool                // a change has not been restored
    var dead: bool                   // the process has died
    var smooth: bool                 // during this call nothing fails, and neither time nor the owner goes

    /** The record, if it is open, is of the current transaction. */
    ghost predicate Dated(r: Option<Record>)
      reads this`original
    {
      !Closed(r) ==> r.value.snapshot == original
    }

    /** What holds wherever the process dies. */
    ghost predicate Recoverable()
      reads this`durable, this`network, this`original, this`changed
    {
      Dated(durable) && (changed ==> !Closed(durable)) && (!changed ==> network == original)
    }

    /** What holds even within an operation. */
    ghost predicate Guarded()
      reads this`record, this`failures, this`durable, this`network, this`original, this`changed
    {
      Recoverable() && Dated(record) && (Closed(record) ==> Closed(durable)) && failures <= MAX_FAILURES
    }

    /** What holds between operations. */
    ghost predicate Valid()
      reads this`owner, this`record, this`failures, this`durable, this`network, this`original, this`changed,
            this`state, this`candidates, this`dead
    {
      && Guarded() && !dead
      && state in {Idle, Discovered, Connected, RestoreRequired}
      && (owner.Some? <==> state in {Discovered, Connected})
      && (state == Idle ==> Closed(record))
      && (state == RestoreRequired ==> !Closed(record))
      && (owner.Some? ==> !Closed(record) && record == durable && failures < MAX_FAILURES)
      && (forall id :: id in candidates ==> ValidPeer(candidates[id]))
    }

    /** The journal durably holds the open record of this transaction. */
    ghost predicate Held()
      reads this`record, this`durable, this`original
    {
      !Closed(durable) && !Closed(record) && durable.value.snapshot == original == record.value.snapshot
    }

    /** A new process, on whatever journal the last one left. */
    method Restart()
      requires Recoverable()
      modifies this
      ensures Valid() && durable == old(durable) && network == old(network) && original == old(original)
      ensures state == (if Closed(durable) then Idle else RestoreRequired)
    {
      owner, deadline, cancelled, candidates, failures, dead := None, 0, false, map[], 0, false;
      record := durable;
      state := if Closed(record) then Idle else RestoreRequired;
    }

    /** Time passes and the owner may disconnect. */
    method Outside()
      modifies this`clock, this`cancelled
      ensures clock >= old(clock) && (old(cancelled) ==> cancelled)
      ensures smooth ==> clock == old(clock) && cancelled == old(cancelled)
    {
      var now: int, gone: bool := *, *;
      if now > clock && !smooth { clock := now; }
      cancelled := cancelled || (gone && !smooth);
    }

    /** The process may die in any step. */
    method Die() returns (dies: bool)
      requires !dead
      modifies this`dead
      ensures dead == dies && (smooth ==> !dies)
    {
      dies := *;
      dies := dies && !smooth;
      dead := dies;
    }

    /** `journal.write`: when it fails the file may have been replaced or not. */
    method Save() returns (saved: bool)
      requires !dead && Guarded() && (changed ==> !Closed(record)) && record.Some?
      modifies this`durable, this`dead
      ensures Guarded() && (saved ==> durable == record && !dead)
      ensures durable in [record, old(durable)]
      ensures smooth ==> saved
    {
      var dies := Die();
      var written: bool := *;
      saved := *;
      saved := (saved || smooth) && !dies;
      if saved || written { durable := record; }
    }

    /** checkpoint_create, checkpoint_extend, prepare, discover, activate: all change the network. */
    method Change() returns (done: bool)
      requires !dead && Guarded() && Held()
      modifies this`network, this`changed, this`clock, this`cancelled, this`dead
      ensures Guarded() && clock >= old(clock) && (done ==> !dead)
      ensures smooth ==> done && clock == old(clock) && cancelled == old(cancelled)
    {
      Outside();
      network, changed := *, true;
      var dies := Die();
      done := *;
      done := (done || smooth) && !dies;
    }

    /** `budget.check` and every other backend query. */
    method Query() returns (done: bool)
      requires !dead
      modifies this`clock, this`cancelled, this`dead
      ensures clock >= old(clock) && (done ==> !cancelled && !dead)
      ensures smooth ==> done == !cancelled && clock == old(clock) && cancelled == old(cancelled)
    {
      Outside();
      var dies := Die();
      done := *;
      done := (done || smooth) && !cancelled && !dies;
    }

    /** `_restore`: whatever happened before, nobody holds the lease afterwards. */
    method Restore() returns (restored: bool)
      requires Guarded() && !dead
      modifies this`state, this`record, this`durable, this`network, this`changed, this`owner, this`deadline,
               this`candidates, this`dead
      ensures Recoverable() && (restored ==> !dead)
      ensures !dead ==> Valid() && owner.None? && candidates == map[]
      ensures !dead ==> state == if restored then Idle else RestoreRequired
      ensures restored ==> Closed(durable) && !changed && network == original
      ensures old(Closed(record)) ==> restored && durable == old(durable)
      ensures smooth ==> restored
    {
      restored := true;
      state := Restoring;
      if !Closed(record) {
        restored := Undo();
        if !dead { restored := SaveEnd(restored); }
        if dead { return false; }
      }
      owner, deadline, candidates := None, 0, map[];
      state := if restored then Idle else RestoreRequired;
    }

    /** The backend's restoration, which may fail or die half-way. */
    method Undo() returns (restored: bool)
      requires Guarded() && !dead && !Closed(record)
      modifies this`record, this`network, this`changed, this`dead
      ensures Recoverable() && (smooth ==> restored && !dead)
      ensures !dead ==>
                && record.Some? && record.value.snapshot == original && (changed ==> !restored)
                && record.value.state == if restored then Restored else RestoreFailed
    {
      var dies := Die();
      restored := *;
      restored := restored || smooth;
      if restored && !dies {
        network, changed := record.value.snapshot, false;
      } else if changed {
        network := *;
      }
      if !dies { record := Some(record.value.(state := if restored then Restored else RestoreFailed)); }
    }

    /** The last write of `_restore`; if it fails the restoration counts as failed. */
    method SaveEnd(restored: bool) returns (ended: bool)
      requires Recoverable() && !dead && failures <= MAX_FAILURES && (changed ==> !restored)
      requires record.Some? && record.value.snapshot == original
      requires record.value.state == if restored then Restored else RestoreFailed
      modifies this`record, this`durable, this`dead
      ensures Recoverable() && (ended ==> !dead)
      ensures !dead ==> Guarded() && Closed(record) == ended && (ended ==> restored && durable == record)
      ensures smooth && restored ==> ended
    {
      var dies := Die();
      var written: bool := *;
      ended := *;
      ended := (ended || smooth) && !dies;
      if ended || written { durable := record; }
      ended := ended && restored;
      if !ended { record := Some(record.value.(state := RestoreFailed)); }
    }

    /** Between transactions the network is the user's. */
    method Elsewhere()
      requires Valid() && state == Idle
      modifies this`network, this`original
      ensures Valid() && original == network
    {
      network := *;
      original := network;
    }

    /** The lease of `sender` runs, or it may acquire one. */
    predicate Admits(sender: nat, acquire: bool)
      reads this`owner, this`cancelled, this`clock, this`deadline, this`state, this`failures
    {
      if owner.Some? then owner.value == sender && !cancelled && clock < deadline
      else acquire && state != RestoreRequired && failures < MAX_FAILURES
    }

    /** `_enter`: one owner at a time; an expired lease is restored first. */
    method Enter(sender: nat, acquire: bool) returns (o: Outcome)
      requires Valid()
      modifies this
      ensures smooth == old(smooth)
      ensures Recoverable() && (o == Died <==> dead) && (o !in {Ok, Died} ==> Valid())
      ensures o == Ok ==> Entered(sender) && (old(owner).None? ==> acquire && state == Idle)
      ensures o == Ok ==> state == old(state) && record == old(record) && durable == old(durable)
                          && candidates == old(candidates)
      ensures old(owner).Some? && old(owner).value != sender ==>
                o == Busy && owner == old(owner) && record == old(record)
      ensures o in {Ok, Busy, NeedsRestore, NoLease, RetryRequired, Died} && failures == old(failures)
      ensures (o == RetryRequired ==> acquire) && (o == Died ==> old(owner) == Some(sender))
      ensures old(owner).None? && acquire ==> o in {Ok, NeedsRestore, RetryRequired}
      ensures old(smooth) ==>
                (o == Ok <==> old(Admits(sender, acquire))) && (o == Ok ==> !cancelled && clock < deadline)
    {
      Outside();
      if owner.Some? && owner.value != sender { return Busy; }
      if state == RestoreRequired { return NeedsRestore; }
      if owner.Some? && (cancelled || clock >= deadline) {
        cancelled := true;
        var _ := Restore();
        return if dead then Died else NoLease;
      }
      if owner.None? {
        if !acquire { return NoLease; }
        if failures >= MAX_FAILURES { return RetryRequired; }
        owner, cancelled, deadline := Some(sender), false, clock + LEASE_SECONDS;
      }
      return Ok;
    }

    /** The lease is held by `sender`: a new one on a closed journal, or one with its transaction. */
    ghost predicate Entered(sender: nat)
      reads this`owner, this`record, this`failures, this`durable, this`network, this`original, this`changed,
            this`state, this`candidates, this`dead
    {
      && Guarded() && !dead && owner == Some(sender)
      && (if Closed(record) then state == Idle else state in {Discovered, Connected} && record == durable)
      && failures < MAX_FAILURES
      && (forall id :: id in candidates ==> ValidPeer(candidates[id]))
    }

    /** `discover`: a failed one is restored at once and leaves no owner; it succeeds whenever nothing fails. */
    method Discover(sender: nat) returns (o: Outcome)
      requires Valid()
      modifies this
      ensures Recoverable() && (o == Died <==> dead) && (!dead ==> Valid())
      ensures o == Ok ==> owner == Some(sender) && state == Discovered
      ensures old(owner).Some? && old(owner).value != sender ==>
                o == Busy && owner == old(owner) && record == old(record)
      ensures old(failures) >= MAX_FAILURES && old(owner).None? ==> o in {NeedsRestore, RetryRequired}
      ensures o == Failed ==> owner.None? && candidates == map[] && failures == old(failures)
      ensures old(smooth) ==> (o == Ok <==> old(Admits(sender, true) && state != Connected))
    {
      o := Enter(sender, true);
      if o != Ok { return; }
      if state == Connected { return Busy; }
      var ready := Prepare();
      if ready { ready := Search(); }
      if !ready {
        if dead { return Died; }
        var _ := Restore();
        return if dead then Died else Failed;
      }
      return Ok;
    }

    /** The transaction of a new lease: the baseline is durable before the first change. */
    method Prepare() returns (ready: bool)
      requires !dead && Guarded() && (Closed(record) || (record == durable && Held()))
      modifies this`record, this`durable, this`network, this`original, this`changed, this`clock, this`cancelled,
               this`dead
      ensures Guarded() && (ready ==> !dead && Held() && record == durable)
      ensures smooth == old(smooth) && clock >= old(clock) && (smooth && !old(cancelled) ==> ready && !cancelled)
    {
      if !Closed(record) { return true; }
      var snapshot := Query();
      if !snapshot { return false; }
      original := network;
      record := Some(Record(Preparing, network, None, None));
      var saved := Save();
      if !saved { return false; }
      var done := Change();
      if !done { return false; }
      var checkpoint: int := *;
      record := Some(record.value.(checkpoint := Some(checkpoint)));
      saved := Save();
      if !saved { return false; }
      ready := Change();
    }

    /** The discovery itself, and its candidates. */
    method Search() returns (found: bool)
      requires !dead && Guarded() && Held()
      modifies this`state, this`record, this`durable, this`network, this`changed, this`clock, this`cancelled, this`dead,
               this`candidates, this`ids
      ensures Guarded() && Held()
      ensures found ==> !dead && state == Discovered && record == durable
                        && forall id :: id in candidates ==> ValidPeer(candidates[id])
      ensures smooth && !old(cancelled) ==> found
    {
      state := Discovering;
      var done := Change();
      if !done { return false; }
      var peers: seq<Peer> := *;
      done := Query();
      if !done { return false; }
      Collect(peers);
      record := Some(record.value.(state := Found));
      state := Discovered;
      found := Save();
    }

    /** Of the first 64 peers found, exactly those that name an available sink, under fresh identities. */
    method Collect(peers: seq<Peer>)
      modifies this`candidates, this`ids
      ensures forall id :: id in candidates ==> ValidPeer(candidates[id])
      ensures forall p :: p in candidates.Values <==> p in First(peers) && ValidPeer(p)
    {
      candidates := map[];
      ghost var first := ids;
      for i := 0 to |First(peers)|
        invariant first <= ids
        invariant forall id :: id in candidates ==> first <= id < ids
        invariant forall id :: id in candidates ==> ValidPeer(candidates[id])
        invariant forall p :: p in candidates.Values <==> p in peers[..i] && ValidPeer(p)
      {
        var peer := peers[i];
        TakeNext(peers, i);
        var available := SinkAvailable(peer.wfd);
        if peer.wellNamed && peer.wellAddressed && available {
          Added(candidates, ids, peer);
          candidates, ids := candidates[ids := peer], ids + 1;
        }
      }
    }

    /** The peers that are looked at. */
    function First(peers: seq<Peer>): seq<Peer> {
      if |peers| <= MAX_PEERS then peers else peers[..MAX_PEERS]
    }

    lemma Added(candidates: map<nat, Peer>, id: nat, peer: Peer)
      requires id !in candidates
      ensures candidates[id := peer].Values == candidates.Values + {peer}
    {
      var all := candidates[id := peer];
      assert all[id] == peer;
      forall p | p in candidates.Values ensures p in all.Values {
        var k :| k in candidates && candidates[k] == p;
        assert all[k] == p;
      }
    }

    /** `connect`: only a fresh candidate, still an available sink, and under the open journal. */
    method Connect(sender: nat, candidate: nat) returns (o: Outcome)
      requires Valid()
      modifies this
      ensures Recoverable() && (o == Died <==> dead) && (!dead ==> Valid())
      ensures o == Ok ==> owner == Some(sender) && state == Connected && failures == 0
      ensures o == StaleCandidate ==> owner == Some(sender) && record == old(record) && failures == old(failures)
      ensures o == Failed ==> owner.None? && 1 <= failures <= old(failures) + 1
      ensures old(owner) != Some(sender) ==> o in {Busy, NeedsRestore, NoLease}
      ensures old(smooth) ==>
                (o == Ok <==> old(Admits(sender, false) && state == Discovered && candidate in candidates))
    {
      o := Enter(sender, false);
      if o != Ok { return; }
      if state != Discovered || candidate !in candidates { return StaleCandidate; }
      var joined := Join(candidates[candidate]);
      if !joined {
        if dead { return Died; }
        failures := failures + 1;
        var _ := Restore();
        return if dead then Died else Failed;
      }
      return Ok;
    }

    /** The connection itself: the peer as it is now, then the activation. */
    method Join(candidate: Peer) returns (joined: bool)
      requires !dead && Guarded() && Held() && owner.Some?
      modifies this`state, this`record, this`durable, this`network, this`changed, this`clock, this`cancelled, this`dead,
               this`failures
      ensures Guarded() && Held() && failures <= old(failures)
      ensures joined ==> !dead && state == Connected && record == durable && failures == 0
      ensures smooth && !old(cancelled) && old(clock) < deadline && ValidPeer(candidate) ==> joined
    {
      var found, peer, recovery := Resolve(candidate);
      if !found { return false; }
      var done := Change();
      if !done { return false; }
      var connection: int := *;
      record := Some(record.value.(connection := Some(connection), state := Joining));
      state := Connecting;
      var saved := Save();
      if !saved { return false; }
      done := Activate(peer, candidate, recovery);
      if !done || cancelled || clock >= deadline { return false; }
      joined := Complete();
    }

    /** The end of a connection. */
    method Complete() returns (joined: bool)
      requires !dead && Guarded() && Held() && owner.Some?
      modifies this`state, this`record, this`durable, this`failures, this`dead
      ensures Guarded() && Held() && state == Connected && failures == 0 && (joined ==> !dead && record == durable)
      ensures smooth ==> joined
    {
      record := Some(record.value.(state := Joined));
      state, failures := Connected, 0;
      joined := Save();
    }

    /** The peer as it is now, and the recovery path. */
    method Resolve(candidate: Peer) returns (found: bool, peer: Peer, recovery: bool)
      requires !dead
      modifies this`clock, this`cancelled, this`dead
      ensures found ==> !dead && ValidPeer(peer) && peer.name == candidate.name && recovery
      ensures smooth ==> clock == old(clock) && cancelled == old(cancelled)
      ensures smooth && !old(cancelled) && ValidPeer(candidate) ==> found
    {
      found, peer, recovery := false, *, false;
      if smooth { peer := candidate; }
      var done := Query();
      var available := SinkAvailable(peer.wfd);
      if !done || !(peer.wellNamed && peer.wellAddressed && available) || peer.name != candidate.name { return; }
      recovery := Query();
      found := recovery;
    }

    /** `activate`: the candidate as an available sink, with a recovery path, while the journal names the connection. */
    method Activate(peer: Peer, candidate: Peer, recovery: bool) returns (done: bool)
      requires !dead && Guarded() && Held() && durable.value.connection.Some?
      requires ValidPeer(peer) && peer.name == candidate.name && recovery
      modifies this`network, this`changed, this`clock, this`cancelled, this`dead
      ensures Guarded() && clock >= old(clock) && (done ==> !dead)
      ensures smooth ==> done && clock == old(clock) && cancelled == old(cancelled)
    {
      done := Change();
    }

    /** `keep_alive`: the lease is extended, or it is restored and nobody owns it any more. */
    method KeepAlive(sender: nat) returns (o: Outcome)
      requires Valid()
      modifies this
      ensures Recoverable() && (o == Died <==> dead) && (!dead ==> Valid())
      ensures o == Ok ==> owner == Some(sender) && state == old(state) && record == old(record)
                          && deadline == clock + LEASE_SECONDS
      ensures old(owner) != Some(sender) ==> o in {Busy, NeedsRestore, NoLease}
      ensures o == Failed ==> owner.None? && candidates == map[] && failures == old(failures)
      ensures old(smooth) ==> (o == Ok <==> old(Admits(sender, false)))
    {
      o := Enter(sender, false);
      if o != Ok { return; }
      var intime := Change();
      if intime { intime := Query(); }
      if !intime {
        if dead { return Died; }
        var _ := Restore();
        return if dead then Died else Failed;
      }
      deadline := clock + LEASE_SECONDS;
    }

    /** `release`: by the owner, or by anybody when there is none. */
    method Release(sender: nat) returns (o: Outcome)
      requires Valid()
      modifies this
      ensures Recoverable() && (o == Died <==> dead) && (!dead ==> Valid())
      ensures o in {Ok, Busy, NeedsRestore, Died} && (o == Busy <==> old(owner).Some? && old(owner).value != sender)
      ensures o == Busy ==> owner == old(owner) && state == old(state) && durable == old(durable)
      ensures o in {Ok, NeedsRestore} ==> owner.None?
      ensures o == Ok ==> state == Idle && owner.None? && failures == 0 && network == original && Closed(durable)
      ensures old(smooth) ==> o in {Ok, Busy}
    {
      if owner.Some? && owner.value != sender { return Busy; }
      cancelled := true;
      var restored := Restore();
      if !restored { return if dead then Died else NeedsRestore; }
      failures := 0;
      return Ok;
    }

    /** `expire`: a lease past its deadline is released. */
    method Expire() returns (expired: bool)
      requires Valid()
      modifies this
      ensures Recoverable() && (!dead ==> Valid())
      ensures expired <==> old(owner).Some? && old(clock) >= old(deadline)
      ensures expired && !dead ==> owner.None?
      ensures !expired ==> owner == old(owner) && state == old(state) && durable == old(durable)
    {
      if owner.None? || clock < deadline { return false; }
      cancelled := true;
      var _ := Release(owner.value);
      return true;
    }

    /** `recover`: the restoration that a journal of an earlier process, or a failed one, asks for. */
    method Recover() returns (restored: bool)
      requires Valid()
      modifies this
      ensures Recoverable() && (!dead ==> Valid() && owner.None?)
      ensures restored ==> !dead && state == Idle && network == original && Closed(durable)
      ensures old(smooth) ==> restored
    {
      restored := Restore();
    }

    /**
     Every run: any operations by anybody, failing backends and journal writes, and the
     process dying anywhere and starting again. An idle helper's network is the original one and
     its journal asks for nothing; an owner has a transaction whose baseline is durable.
     */
    method AnyHistory(calls: seq<nat>)
      requires Valid()
      modifies this
      ensures Valid() && failures <= MAX_FAILURES
      ensures state == Idle ==> network == original && Closed(durable)
      ensures owner.Some? <==> state in {Discovered, Connected}
      ensures owner.Some? ==> durable.Some? && durable.value.state != Restored && durable.value.snapshot == original
    {
      for i := 0 to |calls|
        invariant Valid()
      {
        smooth := *;
        Outside();
        var which: int, id: int := *, *;
        if which == 0 { Restart(); }
        else if which == 1 { var _ := Discover(calls[i]); }
        else if which == 2 && id >= 0 { var _ := Connect(calls[i], id); }
        else if which == 3 { var _ := KeepAlive(calls[i]); }
        else if which == 4 { var _ := Release(calls[i]); }
        else if which == 5 { var _ := Expire(); }
        else if which == 6 && state == Idle { Elsewhere(); }
        else { var _ := Recover(); }
        if dead { Restart(); }
      }
    }
  }
}
