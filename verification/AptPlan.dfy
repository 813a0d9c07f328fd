/**
 Inspection of a simulated package installation (packaging_tools/apt_plan.py).

 The text is given line by line, each line already matched against the patterns of the
 source: what a line is does not depend on the lines around it, what it may follow does.
 */
module AptPlan {
  import opened Bytes

  // --------------------------------------------------------------- data model

  const MAX_LINES := 8192
  const MAX_ADDITIONS := 512
  const MAX_INSTALLED_PACKAGES := 100000
  const PANELBRIDGE := "panelbridge"

  /** `name` or `name:arch`. */
  datatype Qualified = Qualified(name: string, arch: Option<string>)

  datatype Token = Named(package: Qualified) | Malformed

  datatype ListName = Additional | New | Kept | Unused | Suggested | Recommended

  datatype Line =
    | Blank
    | Information(id: nat)
    | Entries(items: seq<Token>)
    | Header(list: ListName)
    | Autoremove
    | Selection
    | Summary(upgraded: nat, added: nat, removed: nat, held: nat)
    | Action(install: bool, package: Qualified, version: string, origin: string, arch: string)
    | Other

  datatype Addition = Addition(package: string, version: string, architecture: string)

  /** An `Inst` line: the origin label is compared, then dropped. */
  datatype Install = Install(addition: Addition, origin: string)

  datatype Plan = Plan(additions: seq<Addition>, notUpgraded: nat)

  datatype Request = Request(expected: string, installed: map<Qualified, string>)

  /** At least two characters, and at most 256, `name:arch` counted as a whole. */
  predicate NameFits(q: Qualified) {
    2 <= |q.name| && |q.name| + (if q.arch.Some? then 1 + |q.arch.value| else 0) <= 256
  }

  predicate Digit(c: char) {
    '0' <= c <= '9'
  }

  function Digits(s: string): (n: nat)
    ensures n <= |s|
  {
    if s != "" && Digit(s[0]) then 1 + Digits(s[1..]) else 0
  }

  /** The version without an epoch such as `2:`. */
  function WithoutEpoch(v: string): string {
    var n := Digits(v);
    if 0 < n < |v| && v[n] == ':' then v[n + 1..] else v
  }

  predicate ValidVersion(v: string) {
    && 1 <= |v| <= 256 && v[|v| - 1] != '-'
    && var u := WithoutEpoch(v);
       u != "" && Digit(u[0])
       && forall c :: c in u ==> Digit(c) || 'a' <= c <= 'z' || 'A' <= c <= 'Z' || c in ".+~-"
  }

  function BaseNames(q: Request): set<string> {
    set p | p in q.installed :: p.name
  }

  predicate ValidRequest(q: Request) {
    && ValidVersion(q.expected) && |q.installed| <= MAX_INSTALLED_PACKAGES
    && (forall p :: p in q.installed ==> NameFits(p) && ValidVersion(q.installed[p]))
    && PANELBRIDGE !in BaseNames(q)
  }

  // --------------------------------------------------------------- acceptance

  /** What the lines read so far establish; `current` is the list an indented line continues. */
  datatype Progress = Progress(summary: Option<Line>, current: Option<ListName>, lists: map<ListName, set<string>>,
                               seen: set<Line>, installs: seq<Install>, configured: set<string>)

  const NOTHING := Progress(None, None, map[], {}, [], {})

  function Names(items: seq<Token>): set<string> {
    set i | 0 <= i < |items| && items[i].Named? :: items[i].package.name
  }

  function AdditionOf(a: Line): Addition
    requires a.Action?
  {
    Addition(a.package.name, a.version, a.arch)
  }

  predicate Open(p: Progress) {
    p.current.Some? && p.current.value in p.lists
  }

  /** The progress after a line that fits. */
  function Step(p: Progress, line: Line): Progress {
    if p.summary.Some? then
      if !line.Action? then p
      else if line.install then p.(installs := p.installs + [Install(AdditionOf(line), line.origin)])
      else p.(configured := p.configured + {line.package.name})
    else
      match line
      case Blank => p
      case Information(_) => p.(seen := p.seen + {line})
      case Entries(items) =>
        if Open(p) then p.(lists := p.lists[p.current.value := p.lists[p.current.value] + Names(items)]) else p
      case Header(l) => p.(current := Some(l), lists := p.lists[l := {}])
      case Selection => p.(current := None, seen := p.seen + {line})
      case Summary(_, _, _, _) => p.(current := None, summary := Some(line))
      case _ => p.(current := None)
  }

  function Read(lines: seq<Line>, k: nat): Progress
    requires k <= |lines|
  {
    if k == 0 then NOTHING else Step(Read(lines, k - 1), lines[k - 1])
  }

  predicate EntriesFit(items: seq<Token>, already: set<string>) {
    forall i :: 0 <= i < |items| ==>
      && items[i].Named? && NameFits(items[i].package)
      && (items[i].package.arch.None? || items[i].package.arch.value in ["arm64", "all"])
      && items[i].package.name !in already && items[i].package.name !in Names(items[..i])
  }

  predicate Lacks(installs: seq<Install>, name: string) {
    forall e :: e in installs ==> e.addition.package != name
  }

  predicate ActionFits(a: Line, q: Request, installs: seq<Install>, configured: set<string>)
    requires a.Action?
  {
    && (a.origin != "" ==> a.origin[|a.origin| - 1] != ' ')
    && NameFits(a.package) && ValidVersion(a.version) && a.arch in ["arm64", "all"]
    && (a.package.arch.Some? ==> a.package.arch.value == a.arch)
    && a.package.name !in BaseNames(q)
    && (a.package.name == PANELBRIDGE ==> a.version == q.expected && a.arch == "arm64")
    && if a.install then Lacks(installs, a.package.name) && |installs| < MAX_ADDITIONS
       else a.package.name !in configured && Install(AdditionOf(a), a.origin) in installs
  }

  predicate ListClosed(p: Progress) {
    Open(p) ==> p.lists[p.current.value] != {}
  }

  predicate Fits(p: Progress, line: Line, q: Request) {
    if p.summary.Some? then
      line.Blank? || (line.Action? && ActionFits(line, q, p.installs, p.configured))
    else
      match line
      case Blank => true
      case Information(_) => line !in p.seen
      case Entries(items) => Open(p) && EntriesFit(items, p.lists[p.current.value])
      case Header(l) => ListClosed(p) && l !in p.lists
      case Autoremove => ListClosed(p) && Unused in p.lists
      case Selection => ListClosed(p) && line !in p.seen
      case Summary(u, n, r, _) => ListClosed(p) && u == 0 && r == 0 && 1 <= n <= MAX_ADDITIONS
      case _ => false
  }

  predicate AllFit(lines: seq<Line>, k: nat, q: Request)
    requires k <= |lines|
  {
    k == 0 || (AllFit(lines, k - 1, q) && Fits(Read(lines, k - 1), lines[k - 1], q))
  }

  lemma {:induction false} AllFitAt(lines: seq<Line>, k: nat, i: nat, q: Request)
    requires i < k <= |lines| && AllFit(lines, k, q)
    ensures Fits(Read(lines, i), lines[i], q)
  {
    if i < k - 1 { AllFitAt(lines, k - 1, i, q); }
  }

  function PackageNames(installs: seq<Install>): set<string> {
    set i | 0 <= i < |installs| :: installs[i].addition.package
  }

  function ListOr(lists: map<ListName, set<string>>, l: ListName): set<string> {
    if l in lists then lists[l] else {}
  }

  predicate ListsAgree(lists: map<ListName, set<string>>, names: set<string>, held: nat) {
    && (New in lists ==> lists[New] == names)
    && (Additional in lists ==> lists[Additional] == names - {PANELBRIDGE})
    && ListOr(lists, Kept) !! names && |ListOr(lists, Kept)| <= held
    && ListOr(lists, Unused) !! names
  }

  predicate Complete(p: Progress) {
    && p.summary.Some? && p.summary.value.Summary?
    && PANELBRIDGE in PackageNames(p.installs)
    && |p.installs| == p.summary.value.added && p.configured == PackageNames(p.installs)
    && ListsAgree(p.lists, PackageNames(p.installs), p.summary.value.held)
  }

  predicate Accepted(lines: seq<Line>, q: Request) {
    && |lines| <= MAX_LINES && ValidRequest(q) && AllFit(lines, |lines|, q)
    && Complete(Read(lines, |lines|))
  }

  function Additions(installs: seq<Install>): seq<Addition> {
    seq(|installs|, i requires 0 <= i < |installs| => installs[i].addition)
  }

  function PlanOf(p: Progress): Plan
    requires Complete(p)
  {
    Plan(Additions(p.installs), p.summary.value.held)
  }

  /** The entries of one package list line, one by one. */
  method AddEntries(items: seq<Token>, already: set<string>) returns (fit: bool, listed: set<string>)
    ensures fit <==> EntriesFit(items, already)
    ensures fit ==> listed == already + Names(items)
  {
    listed := already;
    for i := 0 to |items|
      invariant listed == already + Names(items[..i])
      invariant EntriesFit(items[..i], already)
    {
      var item := items[i];
      TakeNext(items, i);
      forall j | 0 <= j <= i ensures items[..i + 1][..j] == items[..j] {}
      forall j | 0 <= j < i ensures items[..i][..j] == items[..j] {}
      if item.Malformed? || !NameFits(item.package)
         || (item.package.arch.Some? && item.package.arch.value !in ["arm64", "all"])
         || item.package.name in listed {
        return false, listed;
      }
      listed := listed + {item.package.name};
    }
    assert items[..|items|] == items;
    return true, listed;
  }

  lemma CurrentIsListed(lines: seq<Line>, k: nat)
    requires k <= |lines|
    ensures Read(lines, k).current.Some? ==> Open(Read(lines, k))
    ensures Read(lines, k).summary.Some? ==> Read(lines, k).summary.value.Summary?
  {
  }

  /** A line before the summary. */
  method ReadEarly(p: Progress, line: Line, q: Request) returns (fit: bool, next: Progress)
    requires p.summary.None? && (p.current.Some? ==> Open(p))
    ensures fit <==> Fits(p, line, q)
    ensures fit ==> next == Step(p, line)
  {
    var lists, seen := p.lists, p.seen;
    if line.Blank? { return true, p; }
    if line.Information? {
      return line !in seen, p.(seen := seen + {line});
    }
    if line.Entries? && p.current.Some? {
      var listed;
      fit, listed := AddEntries(line.items, lists[p.current.value]);
      return fit, p.(lists := lists[p.current.value := listed]);
    }
    if p.current.Some? && lists[p.current.value] == {} { return false, p; }
    next := p.(current := None);
    match line
    case Header(l) =>
      return l !in lists, next.(current := Some(l), lists := lists[l := {}]);
    case Autoremove => return Unused in lists, next;
    case Selection => return line !in seen, next.(seen := seen + {line});
    case Summary(upgraded, added, removed, _) =>
      return upgraded == 0 && removed == 0 && 1 <= added <= MAX_ADDITIONS, next.(summary := Some(line));
    case _ => return false, p;
  }

  /** A line after the summary. */
  method ReadLate(p: Progress, line: Line, q: Request) returns (fit: bool, next: Progress)
    requires p.summary.Some?
    ensures fit <==> Fits(p, line, q)
    ensures fit ==> next == Step(p, line)
  {
    if !line.Action? { return line.Blank?, p; }
    fit, next := ActionFits(line, q, p.installs, p.configured), p;
    if line.install {
      next := p.(installs := p.installs + [Install(AdditionOf(line), line.origin)]);
    } else {
      next := p.(configured := p.configured + {line.package.name});
    }
  }

  /** `inspect_install_plan`: one pass over the lines. */
  method InspectInstallPlan(lines: seq<Line>, q: Request) returns (plan: Option<Plan>)
    ensures plan.Some? <==> Accepted(lines, q)
    ensures plan.Some? ==> plan.value == PlanOf(Read(lines, |lines|))
  {
    if |lines| > MAX_LINES || !ValidRequest(q) { return None; }
    var p := NOTHING;
    for k := 0 to |lines|
      invariant p == Read(lines, k)
      invariant AllFit(lines, k, q)
    {
      CurrentIsListed(lines, k);
      var fit, next;
      if p.summary == None {
        fit, next := ReadEarly(p, lines[k], q);
      } else {
        fit, next := ReadLate(p, lines[k], q);
      }
      if !fit {
        if AllFit(lines, |lines|, q) { AllFitAt(lines, |lines|, k, q); }
        return None;
      }
      p := next;
    }
    return if Complete(p) then Some(PlanOf(p)) else None;
  }

  // --------------------------------------------------- what acceptance means

  predicate IsInst(line: Line) {
    line.Action? && line.install
  }

  predicate IsConf(line: Line) {
    line.Action? && !line.install
  }

  function InstallAt(line: Line): Install
    requires line.Action?
  {
    Install(AdditionOf(line), line.origin)
  }

  /** An addition within first-install policy. */
  predicate Permitted(e: Install, q: Request) {
    && (e.origin != "" ==> e.origin[|e.origin| - 1] != ' ')
    && ValidVersion(e.addition.version) && e.addition.architecture in ["arm64", "all"]
    && 2 <= |e.addition.package| <= 256
    && e.addition.package !in BaseNames(q)
    && (e.addition.package == PANELBRIDGE ==> e.addition.version == q.expected && e.addition.architecture == "arm64")
  }

  /** What a fitting line has to do with the lines before it. */
  predicate Shape(p: Progress, line: Line) {
    && (if p.summary.Some? then line.Action? || line.Blank? else !line.Action? && !line.Other?)
    && (IsInst(line) ==> Lacks(p.installs, line.package.name))
    && (IsConf(line) ==> line.package.name !in p.configured && InstallAt(line) in p.installs)
    && (line.Entries? ==> Open(p)) && (line.Header? ==> line.list !in p.lists)
  }

  predicate Shaped(lines: seq<Line>, k: nat)
    requires k <= |lines|
  {
    k == 0 || (Shaped(lines, k - 1) && Shape(Read(lines, k - 1), lines[k - 1]))
  }

  lemma {:induction false} ShapedAt(lines: seq<Line>, k: nat, i: nat)
    requires i < k <= |lines| && Shaped(lines, k)
    ensures Shaped(lines, i) && Shape(Read(lines, i), lines[i])
  {
    if i < k - 1 { ShapedAt(lines, k - 1, i); }
  }

  lemma FitsShape(p: Progress, line: Line, q: Request)
    requires Fits(p, line, q)
    ensures Shape(p, line)
    ensures line.Action? ==> Permitted(InstallAt(line), q)
    ensures line.Summary? && p.summary.None? ==> line.upgraded == 0 == line.removed && 1 <= line.added <= MAX_ADDITIONS
  {
  }

  lemma {:induction false} FitIsShaped(lines: seq<Line>, k: nat, q: Request)
    requires k <= |lines| && AllFit(lines, k, q)
    ensures Shaped(lines, k)
  {
    if k > 0 {
      FitIsShaped(lines, k - 1, q);
      FitsShape(Read(lines, k - 1), lines[k - 1], q);
    }
  }

  /** The summary splits the text: no other summary, no action before it, nothing else after it. */
  predicate SplitsAt(lines: seq<Line>, k: nat, s: nat) {
    && s < k <= |lines| && lines[s].Summary? && Quiet(lines, s)
    && (forall i :: s < i < k ==> lines[i].Action? || lines[i].Blank?)
  }

  /** No summary and no action yet. */
  predicate Quiet(lines: seq<Line>, k: nat) {
    k <= |lines| && forall i :: 0 <= i < k ==> !lines[i].Summary? && !lines[i].Action?
  }

  lemma {:induction false} SummarySplits(lines: seq<Line>, k: nat) returns (s: nat)
    requires k <= |lines| && Shaped(lines, k)
    ensures Read(lines, k).summary.None? ==>
              Quiet(lines, k) && Read(lines, k).installs == [] && Read(lines, k).configured == {}
    ensures Read(lines, k).summary.Some? ==> SplitsAt(lines, k, s) && Read(lines, k).summary == Some(lines[s])
    ensures Read(lines, k).summary.Some? ==> Read(lines, s).summary.None?
  {
    s := 0;
    if k > 0 {
      s := SummarySplits(lines, k - 1);
      if Read(lines, k - 1).summary.None? && lines[k - 1].Summary? { s := k - 1; }
    }
  }

  predicate NamesDistinct(installs: seq<Install>) {
    forall i, j :: 0 <= i < j < |installs| ==> installs[i].addition.package != installs[j].addition.package
  }

  lemma DistinctAppend(installs: seq<Install>, e: Install)
    requires NamesDistinct(installs) && Lacks(installs, e.addition.package)
    ensures NamesDistinct(installs + [e])
  {
    forall i | 0 <= i < |installs| ensures installs[i].addition.package != e.addition.package {
      assert installs[i] in installs;
    }
  }

  predicate Announced(lines: seq<Line>, k: nat, e: Install) {
    k <= |lines| && exists i :: 0 <= i < k && IsInst(lines[i]) && InstallAt(lines[i]) == e
  }

  /** The recorded installs are those of the `Inst` lines, with no name twice. */
  lemma {:induction false} InstallsAreInst(lines: seq<Line>, k: nat)
    requires k <= |lines| && Shaped(lines, k)
    ensures forall e :: e in Read(lines, k).installs <==> Announced(lines, k, e)
    ensures NamesDistinct(Read(lines, k).installs)
  {
    if k > 0 {
      InstallsAreInst(lines, k - 1);
      var p, line := Read(lines, k - 1), lines[k - 1];
      assert Shape(p, line);
      if IsInst(line) {
        assert p.summary.Some?;
        DistinctAppend(p.installs, InstallAt(line));
      }
      forall e
        ensures Announced(lines, k, e) <==> Announced(lines, k - 1, e) || (IsInst(line) && e == InstallAt(line))
      {}
    }
  }

  predicate ConfNamed(lines: seq<Line>, k: nat, name: string) {
    k <= |lines| && exists i :: 0 <= i < k && IsConf(lines[i]) && lines[i].package.name == name
  }

  lemma {:induction false} ConfiguredAreConf(lines: seq<Line>, k: nat)
    requires k <= |lines| && Shaped(lines, k)
    ensures forall n :: n in Read(lines, k).configured <==> ConfNamed(lines, k, n)
  {
    if k > 0 {
      ConfiguredAreConf(lines, k - 1);
      forall n ensures ConfNamed(lines, k, n) <==>
                         ConfNamed(lines, k - 1, n) || (IsConf(lines[k - 1]) && n == lines[k - 1].package.name)
      {}
    }
  }

  predicate Preceded(lines: seq<Line>, j: nat)
    requires j < |lines| && lines[j].Action?
  {
    exists i :: 0 <= i < j && IsInst(lines[i]) && InstallAt(lines[i]) == InstallAt(lines[j])
  }

  predicate Followed(lines: seq<Line>, i: nat)
    requires i < |lines| && lines[i].Action?
  {
    exists j :: i < j < |lines| && IsConf(lines[j]) && InstallAt(lines[j]) == InstallAt(lines[i])
  }

  /** A `Conf` line comes after the `Inst` line it matches in full. */
  lemma ConfPreceded(lines: seq<Line>, j: nat)
    requires Shaped(lines, |lines|) && j < |lines| && IsConf(lines[j])
    ensures Preceded(lines, j)
  {
    ShapedAt(lines, |lines|, j);
    InstallsAreInst(lines, j);
    assert Announced(lines, j, InstallAt(lines[j]));
  }

  lemma InstTwice(lines: seq<Line>, i: nat, j: nat)
    requires Shaped(lines, |lines|) && i < j < |lines| && IsInst(lines[i]) && IsInst(lines[j])
    ensures lines[i].package.name != lines[j].package.name
  {
    ShapedAt(lines, |lines|, j);
    InstallsAreInst(lines, j);
    assert Announced(lines, j, InstallAt(lines[i]));
  }

  lemma ConfTwice(lines: seq<Line>, i: nat, j: nat)
    requires Shaped(lines, |lines|) && i < j < |lines| && IsConf(lines[i]) && IsConf(lines[j])
    ensures lines[i].package.name != lines[j].package.name
  {
    ShapedAt(lines, |lines|, j);
    ConfiguredAreConf(lines, j);
    assert ConfNamed(lines, j, lines[i].package.name);
  }

  /** A `Conf` matches the only `Inst` of that name, which stands before it. */
  lemma ConfMatches(lines: seq<Line>, i: nat, j: nat)
    requires Shaped(lines, |lines|) && i < |lines| && j < |lines|
    requires IsInst(lines[i]) && IsConf(lines[j]) && lines[i].package.name == lines[j].package.name
    ensures i < j && InstallAt(lines[i]) == InstallAt(lines[j])
  {
    ConfPreceded(lines, j);
    var h :| 0 <= h < j && IsInst(lines[h]) && InstallAt(lines[h]) == InstallAt(lines[j]);
    if h < i { InstTwice(lines, h, i); } else if i < h { InstTwice(lines, i, h); }
  }

  lemma InstFollowed(lines: seq<Line>, i: nat)
    requires Shaped(lines, |lines|) && i < |lines| && IsInst(lines[i])
    requires Read(lines, |lines|).configured == PackageNames(Read(lines, |lines|).installs)
    ensures Followed(lines, i)
  {
    var n, p, e := |lines|, Read(lines, |lines|), InstallAt(lines[i]);
    InstallsAreInst(lines, n);
    ConfiguredAreConf(lines, n);
    assert Announced(lines, n, e);
    var x :| 0 <= x < |p.installs| && p.installs[x] == e;
    assert e.addition.package in PackageNames(p.installs);
    assert ConfNamed(lines, n, e.addition.package);
    var j :| 0 <= j < n && IsConf(lines[j]) && lines[j].package.name == e.addition.package;
    ConfMatches(lines, i, j);
  }

  /**
   What an accepted text says: one summary of no upgrade and no removal; the plan is
   exactly what the `Inst` lines announce, in the announced number, no name twice; every
   `Conf` comes once and after the `Inst` it matches, and every `Inst` gets one.
   */
  ghost predicate Means(lines: seq<Line>, s: nat, q: Request, installs: seq<Install>, held: nat) {
    && SplitsAt(lines, |lines|, s)
    && lines[s].upgraded == 0 == lines[s].removed && lines[s].held == held
    && 1 <= |installs| == lines[s].added <= MAX_ADDITIONS && NamesDistinct(installs)
    && (forall e :: e in installs <==> Announced(lines, |lines|, e))
    && (forall e :: e in installs ==> Permitted(e, q))
    && (exists e :: e in installs && e.addition == Addition(PANELBRIDGE, q.expected, "arm64"))
    && (forall i :: 0 <= i < |lines| && IsInst(lines[i]) ==> Followed(lines, i))
    && (forall j :: 0 <= j < |lines| && IsConf(lines[j]) ==> Preceded(lines, j))
    && (forall i, j :: 0 <= i < j < |lines| && IsConf(lines[i]) && IsConf(lines[j]) ==>
          lines[i].package.name != lines[j].package.name)
  }

  lemma AcceptedMeans(lines: seq<Line>, q: Request) returns (s: nat)
    requires Accepted(lines, q)
    ensures var p := Read(lines, |lines|);
            Means(lines, s, q, p.installs, PlanOf(p).notUpgraded) && PlanOf(p).additions == Additions(p.installs)
  {
    FitIsShaped(lines, |lines|, q);
    AllPermitted(lines, q);
    s := ShapedMeans(lines, q);
  }

  lemma AdditionsAreInstalls(installs: seq<Install>)
    ensures forall a :: a in Additions(installs) <==> exists e :: e in installs && e.addition == a
  {
    forall e | e in installs ensures e.addition in Additions(installs) {
      var i :| 0 <= i < |installs| && installs[i] == e;
      assert Additions(installs)[i] == e.addition;
    }
  }

  lemma AllPermitted(lines: seq<Line>, q: Request)
    requires AllFit(lines, |lines|, q)
    ensures forall i :: 0 <= i < |lines| && lines[i].Action? ==> Permitted(InstallAt(lines[i]), q)
    ensures forall i :: 0 <= i < |lines| && lines[i].Summary? && Read(lines, i).summary.None? ==>
              lines[i].upgraded == 0 == lines[i].removed && 1 <= lines[i].added <= MAX_ADDITIONS
  {
    forall i | 0 <= i < |lines|
      ensures lines[i].Action? ==> Permitted(InstallAt(lines[i]), q)
      ensures lines[i].Summary? && Read(lines, i).summary.None? ==>
                lines[i].upgraded == 0 == lines[i].removed && 1 <= lines[i].added <= MAX_ADDITIONS
    {
      AllFitAt(lines, |lines|, i, q);
      FitsShape(Read(lines, i), lines[i], q);
    }
  }

  lemma ShapedMeans(lines: seq<Line>, q: Request) returns (s: nat)
    requires Shaped(lines, |lines|) && Complete(Read(lines, |lines|))
    requires forall i :: 0 <= i < |lines| && lines[i].Action? ==> Permitted(InstallAt(lines[i]), q)
    requires forall i :: 0 <= i < |lines| && lines[i].Summary? && Read(lines, i).summary.None? ==>
               lines[i].upgraded == 0 == lines[i].removed && 1 <= lines[i].added <= MAX_ADDITIONS
    ensures Means(lines, s, q, Read(lines, |lines|).installs, Read(lines, |lines|).summary.value.held)
  {
    var n, p := |lines|, Read(lines, |lines|);
    s := SummarySplits(lines, n);
    InstallsAreInst(lines, n);
    forall e | e in p.installs ensures Permitted(e, q) { assert Announced(lines, n, e); }
    forall i | 0 <= i < n && IsInst(lines[i]) ensures Followed(lines, i) { InstFollowed(lines, i); }
    forall j | 0 <= j < n && IsConf(lines[j]) ensures Preceded(lines, j) { ConfPreceded(lines, j); }
    forall i, j | 0 <= i < j < n && IsConf(lines[i]) && IsConf(lines[j])
      ensures lines[i].package.name != lines[j].package.name
    {
      ConfTwice(lines, i, j);
    }
    var k :| 0 <= k < |p.installs| && p.installs[k].addition.package == PANELBRIDGE;
    assert p.installs[k] in p.installs;
  }

  // ------------------------------------------------------------ package lists

  /** The list under whose header line `i` stands. */
  function Under(lines: seq<Line>, i: nat): Option<ListName>
    requires i <= |lines|
  {
    if i == 0 then None
    else match lines[i - 1]
      case Header(l) => Some(l)
      case Blank => Under(lines, i - 1)
      case Information(_) => Under(lines, i - 1)
      case Entries(_) => Under(lines, i - 1)
      case _ => None
  }

  /** The names printed under the header of `l`. */
  predicate Printed(lines: seq<Line>, k: nat, l: ListName, name: string)
    requires k <= |lines|
  {
    exists i :: 0 <= i < k && lines[i].Entries? && Under(lines, i) == Some(l) && name in Names(lines[i].items)
  }

  lemma {:induction false} CurrentIsUnder(lines: seq<Line>, k: nat)
    requires k <= |lines| && Shaped(lines, k)
    ensures Read(lines, k).summary.None? ==> Read(lines, k).current == Under(lines, k)
  {
    if k > 0 { CurrentIsUnder(lines, k - 1); }
  }

  lemma {:induction false} HeadersListed(lines: seq<Line>, k: nat)
    requires k <= |lines| && Shaped(lines, k)
    ensures forall l :: l in Read(lines, k).lists <==> exists i :: 0 <= i < k && lines[i] == Header(l)
  {
    if k > 0 { HeadersListed(lines, k - 1); }
  }

  lemma PrintedNext(lines: seq<Line>, k: nat, l: ListName, n: string)
    requires k < |lines|
    ensures Printed(lines, k + 1, l, n) <==>
              Printed(lines, k, l, n)
              || (lines[k].Entries? && Under(lines, k) == Some(l) && n in Names(lines[k].items))
  {
  }

  lemma {:induction false} ListIsPrinted(lines: seq<Line>, k: nat, l: ListName, n: string)
    requires k <= |lines| && Shaped(lines, k)
    ensures n in ListOr(Read(lines, k).lists, l) <==> Printed(lines, k, l, n)
  {
    if k > 0 {
      ListIsPrinted(lines, k - 1, l, n);
      PrintedNext(lines, k - 1, l, n);
      CurrentIsUnder(lines, k - 1);
      ListStep(Read(lines, k - 1), lines[k - 1], l);
    }
  }

  lemma ListStep(p: Progress, line: Line, l: ListName)
    requires Shape(p, line)
    ensures var names := if p.summary.None? && line.Entries? && p.current == Some(l) then Names(line.items) else {};
            ListOr(Step(p, line).lists, l) == ListOr(p.lists, l) + names
  {
  }

  lemma ListsArePrinted(lines: seq<Line>, k: nat)
    requires k <= |lines| && Shaped(lines, k)
    ensures forall l, n :: n in ListOr(Read(lines, k).lists, l) <==> Printed(lines, k, l, n)
  {
    forall l, n ensures n in ListOr(Read(lines, k).lists, l) <==> Printed(lines, k, l, n) {
      ListIsPrinted(lines, k, l, n);
    }
  }

  /** Every printed list agrees with the plan, and no more is kept back than the summary says. */
  lemma ListsMean(lines: seq<Line>, q: Request) returns (kept: set<string>)
    requires Accepted(lines, q)
    ensures Header(New) in lines ==>
              forall n :: Printed(lines, |lines|, New, n) <==> n in PackageNames(Read(lines, |lines|).installs)
    ensures Header(Additional) in lines ==>
              forall n :: Printed(lines, |lines|, Additional, n)
                          <==> n in PackageNames(Read(lines, |lines|).installs) && n != PANELBRIDGE
    ensures forall n :: Printed(lines, |lines|, Kept, n) || Printed(lines, |lines|, Unused, n)
                        ==> n !in PackageNames(Read(lines, |lines|).installs)
    ensures forall n :: n in kept <==> Printed(lines, |lines|, Kept, n)
    ensures |kept| <= Read(lines, |lines|).summary.value.held
  {
    FitIsShaped(lines, |lines|, q);
    HeadersListed(lines, |lines|);
    ListsArePrinted(lines, |lines|);
    var lists := Read(lines, |lines|).lists;
    assert Header(New) in lines ==> ListOr(lists, New) == lists[New];
    assert Header(Additional) in lines ==> ListOr(lists, Additional) == lists[Additional];
    kept := ListOr(lists, Kept);
  }

  // ---------------------------------------------------------------- rendering

  function Tokens(installs: seq<Install>): seq<Token> {
    seq(|installs|, i requires 0 <= i < |installs| => Named(Qualified(installs[i].addition.package, None)))
  }

  function ActionLine(e: Install, inst: bool): Line {
    Action(inst, Qualified(e.addition.package, None), e.addition.version, e.origin, e.addition.architecture)
  }

  function ActionLines(installs: seq<Install>, inst: bool): seq<Line> {
    seq(|installs|, i requires 0 <= i < |installs| => ActionLine(installs[i], inst))
  }

  /** Everything but PanelBridge itself. */
  function Others(installs: seq<Install>): (r: seq<Install>)
    ensures forall e :: e in r <==> e in installs && e.addition.package != PANELBRIDGE
    ensures NamesDistinct(installs) ==> NamesDistinct(r)
  {
    if installs == [] then []
    else
      var last, r := installs[|installs| - 1], Others(installs[..|installs| - 1]);
      assert forall e :: e in installs <==> e in installs[..|installs| - 1] || e == last;
      if last.addition.package == PANELBRIDGE then r else r + [last]
  }

  /** The canonical text of a plan: both package lists, the summary, all `Inst`, all `Conf`. */
  function Render(installs: seq<Install>, held: nat): seq<Line> {
    var actions := ActionLines(installs, true) + ActionLines(installs, false);
    RenderLists(installs) + ([Summary(0, |installs|, 0, held)] + actions)
  }

  function RenderLists(installs: seq<Install>): seq<Line> {
    var others := Others(installs);
    if others == [] then RenderList(New, installs)
    else RenderList(Additional, others) + RenderList(New, installs)
  }

  function RenderList(l: ListName, installs: seq<Install>): seq<Line> {
    [Header(l), Entries(Tokens(installs))]
  }

  predicate InBounds(installs: seq<Install>, q: Request) {
    && ValidRequest(q) && |installs| <= MAX_ADDITIONS && NamesDistinct(installs)
    && (forall e :: e in installs ==> Permitted(e, q))
    && PANELBRIDGE in PackageNames(installs)
  }

  /** Reading more lines from `p` on. */
  function ReadOn(p: Progress, more: seq<Line>): Progress
    decreases |more|
  {
    if more == [] then p else ReadOn(Step(p, more[0]), more[1..])
  }

  predicate FitOn(p: Progress, more: seq<Line>, q: Request)
    decreases |more|
  {
    more == [] || (Fits(p, more[0], q) && FitOn(Step(p, more[0]), more[1..], q))
  }

  /** From `p`, all `lines` fit and lead to `r`. */
  predicate Leads(p: Progress, lines: seq<Line>, q: Request, r: Progress) {
    FitOn(p, lines, q) && ReadOn(p, lines) == r
  }

  lemma LeadsOn(p: Progress, a: seq<Line>, m: Progress, b: seq<Line>, r: Progress, q: Request)
    requires Leads(p, a, q, m) && Leads(m, b, q, r)
    ensures Leads(p, a + b, q, r)
  {
    OnwardAppend(p, a, b, q);
  }

  lemma LeadsFirst(p: Progress, line: Line, more: seq<Line>, r: Progress, q: Request)
    requires Fits(p, line, q) && Leads(Step(p, line), more, q, r)
    ensures Leads(p, [line] + more, q, r)
  {
    assert ([line] + more)[1..] == more;
  }

  lemma {:induction false} ReadPrefix(a: seq<Line>, b: seq<Line>, k: nat, q: Request)
    requires k <= |a|
    ensures Read(a + b, k) == Read(a, k) && AllFit(a + b, k, q) == AllFit(a, k, q)
  {
    if k > 0 {
      ReadPrefix(a, b, k - 1, q);
      assert (a + b)[k - 1] == a[k - 1];
    }
  }

  lemma {:induction false} ReadInOrder(lines: seq<Line>, more: seq<Line>, q: Request)
    requires AllFit(lines, |lines|, q) && FitOn(Read(lines, |lines|), more, q)
    ensures AllFit(lines + more, |lines + more|, q)
    ensures Read(lines + more, |lines + more|) == ReadOn(Read(lines, |lines|), more)
    decreases |more|
  {
    if more == [] {
      assert lines + more == lines;
    } else {
      Extend(lines, more[0], q);
      ReadInOrder(lines + [more[0]], more[1..], q);
      assert lines + [more[0]] + more[1..] == lines + more;
    }
  }

  lemma Extend(lines: seq<Line>, line: Line, q: Request)
    requires AllFit(lines, |lines|, q) && Fits(Read(lines, |lines|), line, q)
    ensures AllFit(lines + [line], |lines| + 1, q)
    ensures Read(lines + [line], |lines| + 1) == Step(Read(lines, |lines|), line)
  {
    ReadPrefix(lines, [line], |lines|, q);
    assert (lines + [line])[|lines|] == line;
  }

  lemma {:induction false} OnwardAppend(p: Progress, a: seq<Line>, b: seq<Line>, q: Request)
    requires FitOn(p, a, q) && FitOn(ReadOn(p, a), b, q)
    ensures FitOn(p, a + b, q) && ReadOn(p, a + b) == ReadOn(ReadOn(p, a), b)
    decreases |a|
  {
    if a == [] {
      assert a + b == b;
    } else {
      assert (a + b)[1..] == a[1..] + b;
      OnwardAppend(Step(p, a[0]), a[1..], b, q);
    }
  }

  lemma TokensFit(installs: seq<Install>, q: Request)
    requires NamesDistinct(installs) && forall e :: e in installs ==> Permitted(e, q)
    ensures EntriesFit(Tokens(installs), {}) && Names(Tokens(installs)) == PackageNames(installs)
  {
    var ts := Tokens(installs);
    forall i | 0 <= i < |ts| ensures NameFits(ts[i].package) && ts[i].package.name !in Names(ts[..i]) {
      assert installs[i] in installs;
    }
    forall n ensures n in Names(ts) <==> n in PackageNames(installs) {
      if n in PackageNames(installs) {
        var i :| 0 <= i < |installs| && installs[i].addition.package == n;
        assert ts[i].Named?;
      }
    }
  }

  lemma ListReached(p: Progress, l: ListName, installs: seq<Install>, q: Request)
    requires p.summary.None? && ListClosed(p) && l !in p.lists && installs != []
    requires NamesDistinct(installs) && forall e :: e in installs ==> Permitted(e, q)
    ensures Leads(p, RenderList(l, installs), q, p.(current := Some(l), lists := p.lists[l := PackageNames(installs)]))
    ensures PackageNames(installs) != {}
  {
    TokensFit(installs, q);
    var m, list := Step(p, Header(l)), Entries(Tokens(installs));
    assert {} + PackageNames(installs) == PackageNames(installs);
    assert Step(m, list).lists == p.lists[l := PackageNames(installs)];
    assert installs[0].addition.package in PackageNames(installs);
    LeadsFirst(m, list, [], Step(m, list), q);
    LeadsFirst(p, Header(l), [list], Step(m, list), q);
    assert [list] + [] == [list] && [Header(l)] + [list] == RenderList(l, installs);
  }

  function ListsOf(installs: seq<Install>): map<ListName, set<string>> {
    var others, none := Others(installs), NOTHING.lists;
    (if others == [] then none else none[Additional := PackageNames(others)])[New := PackageNames(installs)]
  }

  lemma ListsOfAgree(installs: seq<Install>, held: nat)
    ensures ListsAgree(ListsOf(installs), PackageNames(installs), held)
  {
    OthersNames(installs);
  }

  function Listed(installs: seq<Install>): Progress {
    NOTHING.(current := Some(New), lists := ListsOf(installs))
  }

  lemma HeadReached(installs: seq<Install>, q: Request)
    requires InBounds(installs, q)
    ensures Leads(NOTHING, RenderLists(installs), q, Listed(installs))
  {
    var others := Others(installs);
    if others == [] {
      ListReached(NOTHING, New, installs, q);
    } else {
      ListReached(NOTHING, Additional, others, q);
      var m := NOTHING.(current := Some(Additional), lists := NOTHING.lists[Additional := PackageNames(others)]);
      ListReached(m, New, installs, q);
      LeadsOn(NOTHING, RenderList(Additional, others), m, RenderList(New, installs), Listed(installs), q);
    }
  }

  lemma OthersNames(installs: seq<Install>)
    ensures PackageNames(Others(installs)) == PackageNames(installs) - {PANELBRIDGE}
  {
    var others := Others(installs);
    forall n ensures n in PackageNames(others) <==> n in PackageNames(installs) - {PANELBRIDGE} {
      if n in PackageNames(others) {
        var i :| 0 <= i < |others| && others[i].addition.package == n;
        assert others[i] in installs;
      }
      if n in PackageNames(installs) && n != PANELBRIDGE {
        var i :| 0 <= i < |installs| && installs[i].addition.package == n;
        assert installs[i] in others;
      }
    }
  }

  lemma ActionLinesHead(installs: seq<Install>, k: nat, inst: bool)
    requires k < |installs|
    ensures ActionLines(installs[k..], inst) == [ActionLine(installs[k], inst)] + ActionLines(installs[k + 1..], inst)
  {
  }

  lemma InstFits(p: Progress, e: Install, q: Request)
    requires p.summary.Some? && Permitted(e, q) && Lacks(p.installs, e.addition.package) && |p.installs| < MAX_ADDITIONS
    ensures Fits(p, ActionLine(e, true), q)
    ensures Step(p, ActionLine(e, true)) == p.(installs := p.installs + [e])
  {
  }

  lemma ConfFits(p: Progress, e: Install, q: Request)
    requires p.summary.Some? && Permitted(e, q) && e in p.installs && e.addition.package !in p.configured
    ensures Fits(p, ActionLine(e, false), q)
    ensures Step(p, ActionLine(e, false)) == p.(configured := p.configured + {e.addition.package})
  {
  }

  /** One `Inst` line before the rest of them. */
  lemma InstFirst(p: Progress, installs: seq<Install>, k: nat, q: Request, r: Progress)
    requires p.summary.Some? && InBounds(installs, q) && k < |installs| && p.installs == installs[..k]
    requires Leads(p.(installs := installs[..k + 1]), ActionLines(installs[k + 1..], true), q, r)
    ensures Leads(p, ActionLines(installs[k..], true), q, r)
  {
    var e := installs[k];
    assert e in installs;
    InstFits(p, e, q);
    TakeNext(installs, k);
    LeadsFirst(p, ActionLine(e, true), ActionLines(installs[k + 1..], true), r, q);
    ActionLinesHead(installs, k, true);
  }

  lemma {:induction false} InstsReached(p: Progress, installs: seq<Install>, k: nat, q: Request)
    requires p.summary.Some? && InBounds(installs, q) && k <= |installs| && p.installs == installs[..k]
    ensures Leads(p, ActionLines(installs[k..], true), q, p.(installs := installs))
    decreases |installs| - k
  {
    if k == |installs| {
      assert installs[..k] == installs && ActionLines(installs[k..], true) == [];
    } else {
      InstsReached(p.(installs := installs[..k + 1]), installs, k + 1, q);
      InstFirst(p, installs, k, q, p.(installs := installs));
    }
  }

  /** One `Conf` line before the rest of them. */
  lemma ConfFirst(p: Progress, k: nat, q: Request, r: Progress)
    requires p.summary.Some? && InBounds(p.installs, q) && k < |p.installs|
    requires p.configured == PackageNames(p.installs[..k])
    requires Leads(p.(configured := PackageNames(p.installs[..k + 1])), ActionLines(p.installs[k + 1..], false), q, r)
    ensures Leads(p, ActionLines(p.installs[k..], false), q, r)
  {
    var e := p.installs[k];
    assert e in p.installs;
    ConfFits(p, e, q);
    TakeNext(p.installs, k);
    NamesAppend(p.installs[..k], e);
    LeadsFirst(p, ActionLine(e, false), ActionLines(p.installs[k + 1..], false), r, q);
    ActionLinesHead(p.installs, k, false);
  }

  lemma {:induction false} ConfsReached(p: Progress, k: nat, q: Request)
    requires p.summary.Some? && InBounds(p.installs, q) && k <= |p.installs|
    requires p.configured == PackageNames(p.installs[..k])
    ensures Leads(p, ActionLines(p.installs[k..], false), q, p.(configured := PackageNames(p.installs)))
    decreases |p.installs| - k
  {
    if k == |p.installs| {
      assert p.installs[..k] == p.installs && ActionLines(p.installs[k..], false) == [];
    } else {
      ConfsReached(p.(configured := PackageNames(p.installs[..k + 1])), k + 1, q);
      ConfFirst(p, k, q, p.(configured := PackageNames(p.installs)));
    }
  }

  lemma NamesAppend(installs: seq<Install>, e: Install)
    ensures PackageNames(installs + [e]) == PackageNames(installs) + {e.addition.package}
  {
    var all := installs + [e];
    forall n | n in PackageNames(installs) ensures n in PackageNames(all) {
      var i :| 0 <= i < |installs| && installs[i].addition.package == n;
      assert all[i].addition.package == n;
    }
    assert all[|installs|].addition.package in PackageNames(all);
  }

  lemma ActionsReached(p: Progress, installs: seq<Install>, q: Request)
    requires p.summary.Some? && p.installs == [] && p.configured == {} && InBounds(installs, q)
    ensures Leads(p, ActionLines(installs, true) + ActionLines(installs, false), q,
                  p.(installs := installs, configured := PackageNames(installs)))
  {
    assert installs[0..] == installs && installs[..0] == [] && PackageNames([]) == {};
    InstsReached(p, installs, 0, q);
    var m := p.(installs := installs);
    ConfsReached(m, 0, q);
    var r := m.(configured := PackageNames(installs));
    LeadsOn(p, ActionLines(installs, true), m, ActionLines(installs, false), r, q);
  }

  function Final(installs: seq<Install>, held: nat): Progress {
    Progress(Some(Summary(0, |installs|, 0, held)), None, ListsOf(installs), {}, installs, PackageNames(installs))
  }

  lemma SummaryReached(installs: seq<Install>, held: nat, q: Request)
    requires InBounds(installs, q)
    ensures Fits(Listed(installs), Summary(0, |installs|, 0, held), q)
    ensures Step(Listed(installs), Summary(0, |installs|, 0, held))
            == Final(installs, held).(installs := [], configured := {})
  {
    assert installs[0].addition.package in PackageNames(installs);
  }

  lemma RenderReached(installs: seq<Install>, held: nat, q: Request)
    requires InBounds(installs, q)
    ensures Leads(NOTHING, Render(installs, held), q, Final(installs, held))
  {
    HeadReached(installs, q);
    var p, summary := Listed(installs), Summary(0, |installs|, 0, held);
    var actions := ActionLines(installs, true) + ActionLines(installs, false);
    SummaryReached(installs, held, q);
    ActionsReached(Step(p, summary), installs, q);
    LeadsFirst(p, summary, actions, Final(installs, held), q);
    LeadsOn(NOTHING, RenderLists(installs), p, [summary] + actions, Final(installs, held), q);
  }

  lemma FinalIsComplete(installs: seq<Install>, held: nat, q: Request)
    requires InBounds(installs, q)
    ensures Complete(Final(installs, held))
    ensures PlanOf(Final(installs, held)) == Plan(Additions(installs), held)
  {
    ListsOfAgree(installs, held);
  }

  /** Rendering any plan within bounds gives a text that is accepted and returns that plan. */
  lemma RenderedIsAccepted(installs: seq<Install>, held: nat, q: Request)
    requires InBounds(installs, q)
    ensures Accepted(Render(installs, held), q)
    ensures PlanOf(Read(Render(installs, held), |Render(installs, held)|)) == Plan(Additions(installs), held)
  {
    RenderReached(installs, held, q);
    FinalIsComplete(installs, held, q);
    ReadInOrder([], Render(installs, held), q);
    assert [] + Render(installs, held) == Render(installs, held);
  }

  /** What an accepted text announces is within bounds, so its plan survives rendering. */
  lemma AcceptedRoundTrip(lines: seq<Line>, q: Request)
    requires Accepted(lines, q)
    ensures var p := Read(lines, |lines|);
            var again := Render(p.installs, p.summary.value.held);
            Accepted(again, q) && PlanOf(Read(again, |again|)) == PlanOf(p)
  {
    var s := AcceptedMeans(lines, q);
    var p := Read(lines, |lines|);
    RenderedIsAccepted(p.installs, p.summary.value.held, q);
  }
}
