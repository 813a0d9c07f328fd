/**
 Package inventories and their relation to a recorded plan
 (packaging/installer-bootstrap.py, the functions that only compare).
 */
module PackageState {
  import opened Bytes
  import AptPlan

  type Key = AptPlan.Qualified
  type Addition = AptPlan.Addition

  /** dpkg's `ii `, `hi `, `rc `, `ic ` and `un `. */
  datatype Status = Installed | Held | Removed | Config | Unknown

  datatype Row = Row(status: Status, version: string, architecture: string)

  type Inventory = map<Key, Row>

  /** The versions of what is installed. */
  function InstalledVersions(rows: Inventory): map<Key, string> {
    map k | k in rows && rows[k].status in {Installed, Held} :: rows[k].version
  }

  function InstalledNames(rows: Inventory): set<string> {
    set k | k in InstalledVersions(rows) :: k.name
  }

  predicate ValidInventory(rows: Inventory) {
    && 1 <= |rows| <= 100000
    && (forall k :: k in rows && rows[k].status != Unknown ==> rows[k].version != "" && rows[k].architecture != "")
    && {"labwc", "network-manager", "systemd"} <= InstalledNames(rows)
  }

  /** No trace of an earlier PanelBridge, in whatever state. */
  predicate Fresh(rows: Inventory) {
    forall k :: k in rows ==> k.name != AptPlan.PANELBRIDGE
  }

  function Names(additions: seq<Addition>): set<string> {
    set i | 0 <= i < |additions| :: additions[i].package
  }

  predicate Distinct(additions: seq<Addition>) {
    forall i, j :: 0 <= i < j < |additions| ==> additions[i].package != additions[j].package
  }

  predicate ValidAdditions(additions: seq<Addition>, baseline: Inventory, version: string) {
    && 1 <= |additions| <= 512 && Distinct(additions)
    && (forall a :: a in additions ==> a.architecture in ["all", "arm64"])
    && Names(additions) !! InstalledNames(baseline)
    && AptPlan.Addition(AptPlan.PANELBRIDGE, version, "arm64") in additions
  }

  // ---------------------------------------------------------------- relation

  datatype Relation = Unchanged | Complete | PartialOrForeign

  /** The rows of packages that the plan does not add. */
  function Untouched(rows: Inventory, added: set<string>): Inventory {
    map k | k in rows && k.name !in added :: rows[k]
  }

  function Matches(rows: Inventory, name: string): set<Key> {
    set k | k in rows && k.name == name
  }

  function RowOf(a: Addition): Row {
    Row(Installed, a.version, a.architecture)
  }

  predicate Present(rows: Inventory, a: Addition) {
    |Matches(rows, a.package)| == 1
    && forall k :: k in Matches(rows, a.package) ==>
         (k.arch.None? || k.arch.value == a.architecture) && rows[k] == RowOf(a)
  }

  /** `_package_relation` */
  function PackageRelation(actual: Inventory, baseline: Inventory, additions: Option<seq<Addition>>): Relation {
    if actual == baseline then Unchanged
    else if additions.None? then PartialOrForeign
    else
      var added := Names(additions.value);
      if Untouched(baseline, added) != Untouched(actual, added) then PartialOrForeign
      else if forall a :: a in additions.value ==> Present(actual, a) then Complete
      else PartialOrForeign
  }

  // ------------------------------------------------- what the relation means

  /** The key dpkg lists an addition under, with the architecture for the names in `qualified`. */
  function KeyOf(a: Addition, qualified: set<string>): Key {
    AptPlan.Qualified(a.package, if a.package in qualified then Some(a.architecture) else None)
  }

  /** Exactly the planned additions, each fully installed at its planned version. */
  function Planned(additions: seq<Addition>, qualified: set<string>): Inventory {
    if additions == [] then map[]
    else
      var n := |additions| - 1;
      Planned(additions[..n], qualified)[KeyOf(additions[n], qualified) := RowOf(additions[n])]
  }

  /** The baseline plus exactly the planned additions. */
  function Extended(baseline: Inventory, additions: seq<Addition>, qualified: set<string>): Inventory {
    Untouched(baseline, Names(additions)) + Planned(additions, qualified)
  }

  lemma {:induction false} PlannedAt(additions: seq<Addition>, qualified: set<string>)
    requires Distinct(additions)
    ensures forall k :: k in Planned(additions, qualified) <==> exists a :: a in additions && k == KeyOf(a, qualified)
    ensures forall a :: a in additions ==> KeyOf(a, qualified) in Planned(additions, qualified)
                                           && Planned(additions, qualified)[KeyOf(a, qualified)] == RowOf(a)
  {
    if additions != [] {
      var n := |additions| - 1;
      PlannedAt(additions[..n], qualified);
      var last, so := additions[n], Planned(additions[..n], qualified);
      assert forall a :: a in additions <==> a in additions[..n] || a == last by {
        assert additions == additions[..n] + [last];
      }
      forall k ensures k in Planned(additions, qualified) <==> exists a :: a in additions && k == KeyOf(a, qualified) {
        if k in so {
          var a :| a in additions[..n] && k == KeyOf(a, qualified);
          assert a in additions;
        }
      }
      forall a | a in additions[..n] ensures a.package != last.package {
        var i :| 0 <= i < n && additions[i] == a;
      }
    }
  }

  lemma OneKey(rows: Inventory, a: Addition) returns (k: Key)
    requires Present(rows, a)
    ensures Matches(rows, a.package) == {k} && k in rows && rows[k] == RowOf(a)
    ensures k.name == a.package && (k.arch.None? || k.arch == Some(a.architecture))
  {
    var ks := Matches(rows, a.package);
    assert ks != {};
    k :| k in ks;
    assert |ks - {k}| == 0;
    assert ks == {k};
    assert k.arch.Some? ==> k.arch.value == a.architecture;
  }

  lemma NamesHas(additions: seq<Addition>, a: Addition)
    requires a in additions
    ensures a.package in Names(additions)
  {
    var i :| 0 <= i < |additions| && additions[i] == a;
  }

  /** The names that `rows` lists with their architecture. */
  function QualifiedIn(rows: Inventory): set<string> {
    set k | k in rows && k.arch.Some? :: k.name
  }

  lemma PresentKey(rows: Inventory, a: Addition)
    requires Present(rows, a)
    ensures KeyOf(a, QualifiedIn(rows)) in rows && rows[KeyOf(a, QualifiedIn(rows))] == RowOf(a)
    ensures Matches(rows, a.package) == {KeyOf(a, QualifiedIn(rows))}
  {
    var k := OneKey(rows, a);
    if a.package in QualifiedIn(rows) {
      var h :| h in rows && h.arch.Some? && h.name == a.package;
      assert h in Matches(rows, a.package);
    } else {
      assert k.arch.None?;
    }
  }

  lemma CompleteIsExtended(actual: Inventory, baseline: Inventory, additions: seq<Addition>)
    requires Distinct(additions) && PackageRelation(actual, baseline, Some(additions)) == Complete
    ensures actual == Extended(baseline, additions, QualifiedIn(actual))
  {
    var q, added := QualifiedIn(actual), Names(additions);
    assert Untouched(baseline, added) == Untouched(actual, added);
    PlannedAt(additions, q);
    forall k ensures k in actual <==> k in Extended(baseline, additions, q) {
      if k in actual && k.name in added {
        var i :| 0 <= i < |additions| && additions[i].package == k.name;
        PresentKey(actual, additions[i]);
        assert k in Matches(actual, k.name);
      } else if k in actual {
        assert k in Untouched(actual, added);
      } else if k in Planned(additions, q) {
        var a :| a in additions && k == KeyOf(a, q);
        PresentKey(actual, a);
      }
    }
    forall k | k in actual ensures actual[k] == Extended(baseline, additions, q)[k] {
      if k in Planned(additions, q) {
        var a :| a in additions && k == KeyOf(a, q);
        PresentKey(actual, a);
      } else {
        assert k in Untouched(baseline, added) && k in Untouched(actual, added);
      }
    }
  }

  lemma ExtendedIsPresent(baseline: Inventory, additions: seq<Addition>, qualified: set<string>, a: Addition)
    requires Distinct(additions) && a in additions
    ensures Present(Extended(baseline, additions, qualified), a)
  {
    var rows, k := Extended(baseline, additions, qualified), KeyOf(a, qualified);
    PlannedAt(additions, qualified);
    NamesHas(additions, a);
    assert rows[k] == RowOf(a);
    forall h | h in Matches(rows, a.package) ensures h == k {
      var b :| b in additions && h == KeyOf(b, qualified);
      SameAddition(additions, a, b);
    }
    assert Matches(rows, a.package) == {k};
  }

  lemma SameAddition(additions: seq<Addition>, a: Addition, b: Addition)
    requires Distinct(additions) && a in additions && b in additions && a.package == b.package
    ensures a == b
  {
    var i :| 0 <= i < |additions| && additions[i] == a;
    var j :| 0 <= j < |additions| && additions[j] == b;
    assert i == j;
  }

  lemma ExtendedUntouched(baseline: Inventory, additions: seq<Addition>, qualified: set<string>)
    requires Distinct(additions)
    ensures Untouched(Extended(baseline, additions, qualified), Names(additions))
            == Untouched(baseline, Names(additions))
  {
    PlannedAt(additions, qualified);
    forall a | a in additions ensures a.package in Names(additions) { NamesHas(additions, a); }
  }

  /** Complete means: the baseline plus exactly the planned additions, nothing else. */
  lemma CompleteMeans(actual: Inventory, baseline: Inventory, additions: seq<Addition>, version: string)
    requires Fresh(baseline) && ValidAdditions(additions, baseline, version)
    ensures PackageRelation(actual, baseline, Some(additions)) == Complete
            <==> exists qualified :: actual == Extended(baseline, additions, qualified)
  {
    if PackageRelation(actual, baseline, Some(additions)) == Complete {
      CompleteIsExtended(actual, baseline, additions);
    }
    forall qualified | actual == Extended(baseline, additions, qualified)
      ensures PackageRelation(actual, baseline, Some(additions)) == Complete
    {
      var app := AptPlan.Addition(AptPlan.PANELBRIDGE, version, "arm64");
      ExtendedUntouched(baseline, additions, qualified);
      forall a | a in additions ensures Present(actual, a) { ExtendedIsPresent(baseline, additions, qualified, a); }
      PlannedAt(additions, qualified);
      assert KeyOf(app, qualified) in actual && KeyOf(app, qualified) !in baseline;
    }
  }

  /** What the simulation's inspection accepts, the attempt's journal accepts. */
  lemma AcceptedIsValid(lines: seq<AptPlan.Line>, baseline: Inventory, version: string)
    requires AptPlan.Accepted(lines, AptPlan.Request(version, InstalledVersions(baseline)))
    ensures ValidAdditions(AptPlan.PlanOf(AptPlan.Read(lines, |lines|)).additions, baseline, version)
  {
    var q := AptPlan.Request(version, InstalledVersions(baseline));
    var s := AptPlan.AcceptedMeans(lines, q);
    PermittedIsValid(AptPlan.Read(lines, |lines|).installs, baseline, q);
  }

  lemma PermittedIsValid(installs: seq<AptPlan.Install>, baseline: Inventory, q: AptPlan.Request)
    requires q.installed == InstalledVersions(baseline) && 1 <= |installs| <= 512 && AptPlan.NamesDistinct(installs)
    requires forall e :: e in installs ==> AptPlan.Permitted(e, q)
    requires exists e :: e in installs && e.addition == AptPlan.Addition(AptPlan.PANELBRIDGE, q.expected, "arm64")
    ensures ValidAdditions(AptPlan.Additions(installs), baseline, q.expected)
  {
    AptPlan.AdditionsAreInstalls(installs);
    var additions := AptPlan.Additions(installs);
    forall n | n in Names(additions) ensures n !in InstalledNames(baseline) {
      var i :| 0 <= i < |additions| && additions[i].package == n;
      assert installs[i] in installs && AptPlan.Permitted(installs[i], q);
      assert n !in AptPlan.BaseNames(q);
    }
  }
}
