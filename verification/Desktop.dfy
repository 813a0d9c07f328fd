/**
 The desktop configuration transaction (packaging_tools/desktop_setup.py): managed blocks
 appended to two files, an autostart file owned as a whole, and their restoration.

 A call has the `power` for some number of durable steps and dies before the next one.
 Users edit the files between calls at will, and while a call runs if `editing`.
 */
module Desktop {
  import opened Bytes
  import opened ManagedText

  // --------------------------------------------------------------- data model

  datatype Target = Environment | Kanshi | Autostart

  function Order(): seq<Target> {
    [Environment, Kanshi, Autostart]
  }

  lemma OrderCovers(t: Target)
    ensures t in Order()
  {
    match t
    case Environment => assert Order()[0] == t;
    case Kanshi => assert Order()[1] == t;
    case Autostart => assert Order()[2] == t;
  }

  const ENTRY := "[Desktop Entry]\nType=Application\nName=PanelBridge desktop session\n"
               + "Exec=/usr/lib/panelbridge/session-launch\nTerminal=false\nNoDisplay=true\n"
  const ENABLED := "X-GNOME-Autostart-enabled=true\n"

  /** The autostart file of earlier versions, and of this one. */
  const LEGACY_AUTOSTART := ENTRY + "OnlyShowIn=labwc;LXDE;\n" + ENABLED
  const AUTOSTART := ENTRY + "OnlyShowIn=labwc;LXDE;rpd-wayland;\n" + ENABLED

  const BACKENDS := "WLR_BACKENDS=drm,libinput,headless\n"
  const OUTPUTS := "WLR_HEADLESS_OUTPUTS=1\n"
  const ENVIRONMENT_BODY := BACKENDS + OUTPUTS
  const MAX_CONTENT := 524288
  const PRIVATE_MODE := 0x180

  /** Two journal writes and three files: with this much power no call dies. */
  const UNINTERRUPTED := 5

  datatype Content = Content(data: string, mode: nat, gid: nat)

  type File = Option<Content>

  type Files = map<Target, Content>

  /** One configuration file; `body` is the managed block's, between its marks. */
  datatype Item = Item(before: Option<string>, applied: string, body: Option<string>, mode: nat, gid: Option<nat>)

  datatype Move = Move(source: Option<string>, target: Option<string>, mode: nat, gid: Option<nat>)

  datatype State = Prepared | Installed | Restoring | Uninstalled

  datatype Record = Record(state: State, files: map<Target, Item>, restore: map<Target, Move>)

  function Get(files: Files, t: Target): File {
    if t in files then Some(files[t]) else None
  }

  function Data(f: File): Option<string> {
    if f.None? then None else Some(f.value.data)
  }

  function Text(data: Option<string>): string {
    if data.None? then "" else data.value
  }

  predicate Bounded(data: Option<string>) {
    |Text(data)| <= MAX_CONTENT
  }

  // ------------------------------------------------------------- restoration

  datatype Restoration = To(target: Option<string>) | Changed

  /** `_restored` */
  function Restored(data: Option<string>, item: Item, allowPredecessor: bool): Restoration {
    if data == item.before
       || (item.body.None?
           && (data == Some(item.applied)
               || (allowPredecessor && item.applied == AUTOSTART && data == Some(LEGACY_AUTOSTART)))) then
      To(item.before)
    else if data.Some? && item.body.Some? && Managed(data.value, Block(item.body.value)) then
      var rest := RemoveFirst(data.value, Block(item.body.value));
      To(if item.before.None? && rest == "" then None else Some(rest))
    else Changed
  }

  /** A file item that `_record` accepts. */
  predicate ValidItem(t: Target, item: Item) {
    && item.mode <= 0x1FF && Bounded(item.before) && |item.applied| <= MAX_CONTENT
    && if t == Autostart then
         && item.body.None? && item.applied in [LEGACY_AUTOSTART, AUTOSTART]
         && item.before in [None, Some(LEGACY_AUTOSTART), Some(item.applied)]
       else
         && item.body.Some? && item.applied == Text(item.before) + Block(item.body.value)
         && Count(Block(item.body.value), BEGIN) == 1 == Count(Block(item.body.value), END)
         && (t == Environment ==> item.body.value == ENVIRONMENT_BODY)
  }

  predicate ValidMove(m: Move, item: Item) {
    && Restored(m.source, item, true) == To(m.target) && m.mode == item.mode && m.gid == item.gid
    && Bounded(m.source) && Bounded(m.target)
  }

  /** What `_record` accepts. */
  ghost predicate ValidRecord(r: Record) {
    && Environment in r.files && Kanshi in r.files
    && (forall t {:trigger ItemAccepted(r, t)} :: t in r.files ==> ItemAccepted(r, t))
    && (r.restore == map[] || r.restore.Keys == r.files.Keys)
    && (r.state == Restoring ==> r.restore != map[])
    && (r.state in {Prepared, Installed} ==> r.restore == map[])
    && (forall t {:trigger MoveAccepted(r, t)} :: t in r.restore && t in r.files ==> MoveAccepted(r, t))
  }

  predicate ItemAccepted(r: Record, t: Target)
    requires t in r.files
  {
    ValidItem(t, r.files[t])
  }

  predicate MoveAccepted(r: Record, t: Target)
    requires t in r.files && t in r.restore
  {
    ValidMove(r.restore[t], r.files[t])
  }

  /** An item whose original holds no mark, as `_item` demands. */
  predicate Clean(item: Item) {
    item.body.Some? ==> Body(item.body.value) && Unmarked(Text(item.before))
  }

  predicate CleanAt(r: Record, t: Target)
    requires t in r.files
  {
    Clean(r.files[t])
  }

  /** A record that this code writes: accepted on loading, with unmarked originals. */
  ghost predicate Sound(r: Record) {
    ValidRecord(r) && forall t {:trigger CleanAt(r, t)} :: t in r.files ==> CleanAt(r, t)
  }

  /** The record with an autostart item that is still to be written. */
  function Extended(record: Record, item: Item): Record {
    record.(state := Prepared, files := record.files[Autostart := item])
  }

  lemma ExtendSound(record: Record, item: Item)
    requires Sound(record) && record.state in {Prepared, Installed} && ValidItem(Autostart, item) && Clean(item)
    ensures Sound(Extended(record, item))
  {
    var next := Extended(record, item);
    forall t | t in next.files ensures ItemAccepted(next, t) && CleanAt(next, t) {
      if t != Autostart { assert ItemAccepted(record, t) && CleanAt(record, t); }
    }
  }

  /** Restoring the applied content gives the original back, in the one case where it does. */
  lemma AppliedRestores(item: Item, allow: bool)
    requires Clean(item) && (item.body.Some? ==> item.applied == Text(item.before) + Block(item.body.value))
    ensures Restored(Some(item.applied), item, allow) == To(item.before)
            <==> item.body.None? || !Straddles(Text(item.before))
    ensures item.body.Some? && Straddles(Text(item.before)) ==> Restored(Some(item.applied), item, allow) == Changed
  {
    if item.body.Some? {
      AppendedIsManaged(Text(item.before), item.body.value);
      assert |Block(item.body.value)| > 0;
      assert Some(item.applied) != item.before by {
        if item.before.Some? { assert |item.applied| > |item.before.value|; }
      }
    }
  }

  /** Uninstalling keeps what a user wrote before and after the managed block. */
  lemma EditsSurvive(item: Item, before: string, after: string, allow: bool)
    requires item.body.Some? && var text := before + Block(item.body.value) + after;
             Managed(text, Block(item.body.value)) && Some(text) != item.before
    ensures Restored(Some(before + Block(item.body.value) + after), item, allow)
            == To(if item.before.None? && before + after == "" then None else Some(before + after))
  {
    assert EndsWith(Block(item.body.value), END);
    RemovalKeepsEdits(before, Block(item.body.value), after);
  }

  // ------------------------------------------------------------------- plans

  datatype Verdict = Keep | Write | Clash

  /** What `read` does not refuse. */
  predicate Readable(f: File) {
    f.Some? ==> |f.value.data| <= MAX_CONTENT && f.value.mode <= 0x1FF
  }

  predicate Foreign(item: Item, f: File) {
    f.Some? && (f.value.mode != item.mode || (item.gid.Some? && f.value.gid != item.gid.value))
  }

  /** One target in `_install_plan`. */
  function InstallVerdict(state: State, t: Target, item: Item, f: File): Verdict {
    if Foreign(item, f) then Clash
    else if Data(f) == Some(item.applied)
            || (item.body.Some? && f.Some? && Managed(f.value.data, Block(item.body.value))) then Keep
    else if state == Prepared && (Data(f) == item.before
            || (t == Autostart && item.applied == AUTOSTART && Data(f) == Some(LEGACY_AUTOSTART))) then Write
    else Clash
  }

  /** `_install_plan` finds a conflict. */
  predicate Clashes(r: Record, seen: map<Target, File>)
    requires seen.Keys == r.files.Keys
  {
    exists t {:trigger VerdictAt(r, seen, t)} :: t in seen && VerdictAt(r, seen, t) == Clash
  }

  function VerdictAt(r: Record, seen: map<Target, File>, t: Target): Verdict
    requires t in r.files && t in seen
  {
    InstallVerdict(r.state, t, r.files[t], seen[t])
  }

  /** One target in `_restore_plan`. */
  function RestoreVerdict(r: Record, t: Target, f: File): Restoration
    requires t in r.files && (r.state == Restoring ==> t in r.restore)
  {
    if Foreign(r.files[t], f) then Changed
    else if r.state == Restoring then
      if Data(f) in [r.restore[t].source, r.restore[t].target] then To(r.restore[t].target) else Changed
    else Restored(Data(f), r.files[t], r.state == Prepared)
  }

  /** The content that the transaction itself gives a file, at some version of its template. */
  predicate AppliedAs(t: Target, item: Item, f: File) {
    && f.Some? && !Foreign(item, f)
    && (Data(f) == Some(item.applied)
        || (t == Autostart && item.applied == AUTOSTART && Data(f) == Some(LEGACY_AUTOSTART)))
  }

  /** ... at the recorded version. */
  predicate FullyApplied(item: Item, f: File) {
    f.Some? && !Foreign(item, f) && Data(f) == Some(item.applied)
  }

  // ------------------------------------------------------------- transaction

  lemma RestoredAllows(data: Option<string>, item: Item)
    requires Restored(data, item, false).To?
    ensures Restored(data, item, true) == Restored(data, item, false)
  {
  }

  lemma RestoredBounded(data: Option<string>, item: Item, allow: bool)
    requires Bounded(data) && Bounded(item.before) && Restored(data, item, allow).To?
    ensures Bounded(Restored(data, item, allow).target)
  {
  }

  lemma UninstalledSound(r: Record)
    requires Sound(r) && r.state == Restoring
    ensures Sound(r.(state := Uninstalled))
  {
    var next := r.(state := Uninstalled);
    forall t | t in next.files ensures ItemAccepted(next, t) && CleanAt(next, t) && MoveAccepted(next, t) {
      assert ItemAccepted(r, t) && CleanAt(r, t) && MoveAccepted(r, t);
    }
  }

  /** The moves that `uninstall` journals before it changes anything. */
  function Moves(r: Record, seen: map<Target, File>): map<Target, Move>
    requires seen.Keys == r.files.Keys && r.state != Restoring
    requires forall t :: t in seen ==> RestoreVerdict(r, t, seen[t]).To?
  {
    map t | t in seen ::
      Move(Data(seen[t]), RestoreVerdict(r, t, seen[t]).target, r.files[t].mode, r.files[t].gid)
  }

  lemma MovesSound(r: Record, seen: map<Target, File>)
    requires Sound(r) && r.state in {Prepared, Installed} && seen.Keys == r.files.Keys
    requires forall t :: t in seen ==> RestoreVerdict(r, t, seen[t]).To? && Bounded(Data(seen[t]))
    ensures Sound(r.(state := Restoring, restore := Moves(r, seen)))
  {
    var next := r.(state := Restoring, restore := Moves(r, seen));
    assert Environment in next.restore;
    forall t | t in next.files ensures ItemAccepted(next, t) && CleanAt(next, t) && MoveAccepted(next, t) {
      assert ItemAccepted(r, t) && CleanAt(r, t);
      MoveSound(r, t, seen[t]);
    }
  }

  lemma MoveSound(r: Record, t: Target, f: File)
    requires t in r.files && ValidItem(t, r.files[t]) && r.state in {Prepared, Installed}
    requires RestoreVerdict(r, t, f).To? && Bounded(Data(f))
    ensures ValidMove(Move(Data(f), RestoreVerdict(r, t, f).target, r.files[t].mode, r.files[t].gid), r.files[t])
  {
    RestoredBounded(Data(f), r.files[t], r.state == Prepared);
    if r.state != Prepared { RestoredAllows(Data(f), r.files[t]); }
  }

  datatype Outcome = Done | NotInstalled | Refused | Conflict | Disturbed | Crashed

  class DesktopSetup {
    const includeAutostart: bool
    const customises: string -> bool // an environment that already chooses a backend
    ghost const origin: Files        // the files before the first install
    var files: Files
    var journal: Option<Record>
    var power: nat
    var editing: bool

    ghost predicate Valid()
      reads this`journal
    {
      journal.Some? ==> Sound(journal.value)
    }

    ghost predicate AtApplied(t: Target, item: Item)
      reads this`files
    {
      AppliedAs(t, item, Get(files, t))
    }

    /** The item records the original. */
    ghost predicate Records(t: Target, item: Item) {
      && item.before == Data(Get(origin, t))
      && (if t in origin then item.mode == origin[t].mode && item.gid == Some(origin[t].gid)
          else item.gid == None)
    }

    /** No original ends in a mark that lacks its newline. */
    ghost predicate Restorable() {
      forall t :: t in origin && t != Autostart ==> !Straddles(origin[t].data)
    }

    /** Without users' edits: every file is at its original or at what the transaction made of it. */
    ghost predicate Fits()
      reads this`files, this`journal
    {
      match journal
      case None => files == origin
      case Some(r) => FitsRecord(r)
    }

    ghost predicate FitsRecord(r: Record)
      reads this`files
    {
      && (forall t :: t !in r.files ==> Get(files, t) == Get(origin, t))
      && (forall t {:trigger Fit(r, t)} :: t in r.files ==> Fit(r, t))
    }

    ghost predicate Fit(r: Record, t: Target)
      requires t in r.files
      reads this`files
    {
      match r.state
      case Uninstalled => Get(files, t) == Get(origin, t)
      case Installed => Records(t, r.files[t]) && FullyApplied(r.files[t], Get(files, t))
      case Prepared => Records(t, r.files[t]) && (Get(files, t) == Get(origin, t) || AtApplied(t, r.files[t]))
      case Restoring =>
        && Records(t, r.files[t]) && (Get(files, t) == Get(origin, t) || AtApplied(t, r.files[t]))
        && t in r.restore && r.restore[t].target == r.files[t].before
        && Data(Get(files, t)) in [r.restore[t].source, r.restore[t].target]
    }

    constructor (includeAutostart: bool, customises: string -> bool, files: Files)
      ensures Valid() && Fits() && this.files == files && origin == files && journal == None
      ensures this.includeAutostart == includeAutostart && this.customises == customises
    {
      this.includeAutostart, this.customises := includeAutostart, customises;
      this.files, this.origin, journal, power, editing := files, files, None, 0, false;
    }

    method Step() returns (alive: bool)
      modifies this`power
      ensures alive <==> old(power) > 0
      ensures power == if alive then old(power) - 1 else 0
    {
      alive := power > 0;
      if alive { power := power - 1; }
    }

    method Outside()
      modifies this`files
      ensures !editing ==> files == old(files)
    {
      if editing { files := *; }
    }

    /** `_save` */
    method Save(r: Record) returns (saved: bool)
      requires Sound(r)
      modifies this`journal, this`power
      ensures saved == (old(power) > 0) && old(power) <= power + 1
      ensures journal == if saved then Some(r) else old(journal)
      ensures old(Valid()) ==> Valid()
    {
      saved := Step();
      if saved { journal := Some(r); }
    }

    /** `_write_target`: checked against what the plan saw, then replaced or removed. */
    method WriteTarget(t: Target, data: Option<string>, item: Item, expected: File) returns (o: Outcome)
      modifies this`files, this`power
      ensures o in {Done, Disturbed, Crashed} && old(power) <= power + 1
      ensures o == Crashed ==> old(power) == 0
      ensures !editing ==>
                && (forall u :: u != t ==> Get(files, u) == Get(old(files), u))
                && (o != Done ==> files == old(files))
                && (o == Disturbed ==> Get(old(files), t) != expected)
                && (o == Done && data.None? ==> t !in files)
                && (o == Done && data.Some? ==>
                      t in files && files[t].data == data.value && !Foreign(item, Some(files[t])))
    {
      Outside();
      if Get(files, t) != expected { return Disturbed; }
      var alive := Step();
      if !alive { return Crashed; }
      if data.None? {
        files := files - {t};
      } else {
        var gid: int := *;
        if item.gid.Some? { gid := item.gid.value; } else if gid < 0 { gid := 0; }
        files := files[t := Content(data.value, item.mode, gid)];
      }
      return Done;
    }

    /** The reads of a plan; an unreadable file ends the call. */
    method Scan(targets: set<Target>) returns (readable: bool, seen: map<Target, File>)
      modifies this`files
      ensures !editing ==> files == old(files)
      ensures readable ==> seen.Keys == targets && forall t :: t in seen ==> Readable(seen[t])
      ensures readable && !editing ==> forall t :: t in seen ==> seen[t] == Get(files, t)
      ensures !editing && (forall t :: t in targets ==> Readable(Get(files, t))) ==> readable
    {
      seen, readable := map[], true;
      var order := Order();
      for i := 0 to |order|
        invariant !editing ==> files == old(files)
        invariant forall t :: t in seen <==> t in targets && t in order[..i]
        invariant forall t :: t in seen ==> Readable(seen[t])
        invariant !editing ==> forall t :: t in seen ==> seen[t] == Get(files, t)
      {
        TakeNext(order, i);
        if order[i] in targets {
          Outside();
          if !Readable(Get(files, order[i])) { return false, seen; }
          seen := seen[order[i] := Get(files, order[i])];
        }
      }
      forall t ensures t in order[..|order|] { OrderCovers(t); }
    }

    /** What `_item` accepts. */
    predicate Acceptable(body: Option<string>, f: File) {
      && Readable(f)
      && if body.None? then Data(f) in [None, Some(LEGACY_AUTOSTART), Some(AUTOSTART)]
         else Unmarked(Text(Data(f))) && |Text(Data(f)) + Block(body.value)| <= MAX_CONTENT
    }

    /** What it makes of it: the file as it is, and the content to come. */
    predicate Describes(item: Item, body: Option<string>, f: File) {
      && item.before == Data(f) && item.body == body && item.applied == Intended(body, f)
      && (if f.Some? then item.mode == f.value.mode && item.gid == Some(f.value.gid) else item.gid == None)
    }

    function Intended(body: Option<string>, f: File): string {
      if body.None? then AUTOSTART else Text(Data(f)) + Block(body.value)
    }

    /** The managed block of each file; the autostart file has none. */
    function BodyOf(t: Target, layout: string): Option<string> {
      match t
      case Environment => Some(ENVIRONMENT_BODY)
      case Kanshi => Some(layout)
      case Autostart => None
    }

    function Wanted(): set<Target> {
      {Environment, Kanshi} + if includeAutostart then {Autostart} else {}
    }

    /** A first installation is possible: every file is acceptable, and no backend is chosen yet. */
    predicate Installable(layout: string)
      reads this`files
    {
      && !customises(Text(Data(Get(files, Environment))))
      && AllAcceptable(layout)
    }

    predicate AllAcceptable(layout: string)
      reads this`files
    {
      && Acceptable(Some(ENVIRONMENT_BODY), Get(files, Environment))
      && Acceptable(Some(layout), Get(files, Kanshi))
      && (includeAutostart ==> Acceptable(None, Get(files, Autostart)))
    }

    predicate Described(items: map<Target, Item>, layout: string)
      requires items.Keys == Wanted()
      reads this`files
    {
      && Describes(items[Environment], Some(ENVIRONMENT_BODY), Get(files, Environment))
      && Describes(items[Kanshi], Some(layout), Get(files, Kanshi))
      && (includeAutostart ==> Describes(items[Autostart], None, Get(files, Autostart)))
    }

    lemma DescribedAt(items: map<Target, Item>, layout: string, t: Target)
      requires items.Keys == Wanted() && t in items && Described(items, layout)
      ensures Describes(items[t], BodyOf(t, layout), Get(files, t))
      ensures AllAcceptable(layout) ==> Acceptable(BodyOf(t, layout), Get(files, t))
    {
      match t
      case Environment =>
      case Kanshi =>
      case Autostart =>
    }

    /** A described file is written, unless it is there already. */
    lemma DescribedIsWritten(t: Target, item: Item, body: Option<string>, f: File)
      requires (t == Autostart <==> body.None?) && Acceptable(body, f) && Describes(item, body, f)
      ensures InstallVerdict(Prepared, t, item, f) == (if Data(f) == Some(item.applied) then Keep else Write)
    {
      if body.Some? {
        assert Count(Text(Data(f)), BEGIN) == 0;
      }
    }

    /** `_item`: the original must not hold a mark, or must be one of the known autostart files. */
    method ItemFor(t: Target, body: Option<string>) returns (ok: bool, item: Item)
      requires t == Autostart <==> body.None?
      requires body.Some? ==> Body(body.value) && (t == Environment ==> body.value == ENVIRONMENT_BODY)
      modifies this`files
      ensures !editing ==> files == old(files)
      ensures ok ==> ValidItem(t, item) && Clean(item)
      ensures ok && body.None? ==> item.applied == AUTOSTART
      ensures !editing ==> ok == Acceptable(body, Get(files, t))
      ensures ok && !editing ==> Describes(item, body, Get(files, t))
    {
      Outside();
      var f := Get(files, t);
      var before := Data(f);
      item := Item(before, AUTOSTART, body, if f.Some? then f.value.mode else PRIVATE_MODE,
                   if f.Some? then Some(f.value.gid) else None);
      if !Readable(f) { return false, item; }
      if body.None? {
        AutostartBounded();
        return before in [None, Some(LEGACY_AUTOSTART), Some(AUTOSTART)], item;
      }
      item := item.(applied := Text(before) + Block(body.value));
      BlockCounts(body.value);
      return Unmarked(Text(before)) && |item.applied| <= MAX_CONTENT, item;
    }

    /** The items of a first installation. */
    method Items(layout: string) returns (ok: bool, items: map<Target, Item>)
      requires Body(layout)
      modifies this`files
      ensures !editing ==> files == old(files)
      ensures ok ==> items.Keys == Wanted()
      ensures ok ==> forall t :: t in items ==> ValidItem(t, items[t]) && Clean(items[t])
      ensures !editing ==> ok == AllAcceptable(layout)
      ensures ok && !editing ==> Described(items, layout)
    {
      ok, items := TextItems(layout);
      if ok && includeAutostart {
        var autostart;
        ok, autostart := ItemFor(Autostart, None);
        items := items[Autostart := autostart];
      }
    }

    /** Those of the two files with managed blocks. */
    method TextItems(layout: string) returns (ok: bool, items: map<Target, Item>)
      requires Body(layout)
      modifies this`files
      ensures !editing ==> files == old(files)
      ensures ok ==> items.Keys == {Environment, Kanshi}
      ensures ok ==> forall t :: t in items ==> ValidItem(t, items[t]) && Clean(items[t])
      ensures !editing ==>
                (ok <==> && Acceptable(Some(ENVIRONMENT_BODY), Get(files, Environment))
                         && Acceptable(Some(layout), Get(files, Kanshi)))
      ensures ok && !editing ==> && Describes(items[Environment], Some(ENVIRONMENT_BODY), Get(files, Environment))
                                 && Describes(items[Kanshi], Some(layout), Get(files, Kanshi))
    {
      var environment, kanshi;
      items := map[];
      EnvironmentBody();
      ok, environment := ItemFor(Environment, Some(ENVIRONMENT_BODY));
      if !ok { return; }
      ok, kanshi := ItemFor(Kanshi, Some(layout));
      items := map[Environment := environment, Kanshi := kanshi];
    }

    /** An installation has begun and is not being undone. */
    predicate Resumable()
      reads this`journal
    {
      journal.Some? && journal.value.state in {Prepared, Installed}
    }

    /** ... of all the files that this call is to install. */
    predicate Begun()
      reads this`journal
    {
      Resumable() && (includeAutostart ==> Autostart in journal.value.files)
    }

    /** ... with the present autostart file among them. */
    predicate Current()
      reads this`journal
    {
      Resumable() && Autostart in journal.value.files && journal.value.files[Autostart].applied != LEGACY_AUTOSTART
    }

    /**
     `install`: what it records first, it can always resume or restore. Without edits it
     keeps `Fits` wherever it dies, a conflict changes no file, and an installation that has
     begun is brought to its end, unless the autostart file that is to join it is not
     acceptable. A first one is refused exactly where it is not `Installable`, and leaves
     every file with its block, or as the autostart file.
     */
    method Install(layout: string) returns (r: Outcome)
      requires Valid() && Body(layout)
      modifies this`files, this`journal, this`power
      ensures Valid()
      ensures !editing && old(Fits()) ==> Fits()
      ensures r == Done ==> journal.Some? && journal.value.state == Installed
      ensures !editing && old(Fits()) ==> r in {Done, Refused, Crashed}
      ensures r in {Refused, Conflict} && !editing ==> files == old(files)
      ensures !editing && old(Fits()) && old(Resumable()) ==>
                (r in {Done, Crashed} <==> old(Begun() || Acceptable(None, Get(files, Autostart))))
      ensures old(journal).Some? && old(journal).value.state == Restoring ==> r == Refused
      ensures !editing && !old(Recorded()) ==>
                && r in {Done, Refused, Crashed} && (r == Refused <==> !old(Installable(layout)))
                && (r == Done ==> journal.value.files.Keys == Wanted()
                                  && forall t :: t in Wanted() ==>
                                       Holds(t, Intended(BodyOf(t, layout), Get(old(files), t))))
      ensures r == Crashed ==> old(power) < UNINTERRUPTED
    {
      if journal.Some? && journal.value.state == Restoring { return Refused; }
      if journal.None? || journal.value.state == Uninstalled {
        r := First(layout);
        return;
      } else if includeAutostart {
        if !editing && Fits() { FitsUnobstructed(); }
        r := Upgrade();
      } else {
        r := Done;
      }
      if r != Done { return; }
      r := Apply();
    }

    predicate Holds(t: Target, data: string)
      reads this`files
    {
      Data(Get(files, t)) == Some(data)
    }

    /** A first installation. */
    method First(layout: string) returns (r: Outcome)
      requires Valid() && Body(layout) && (journal.None? || journal.value.state == Uninstalled)
      modifies this`files, this`journal, this`power
      ensures Valid() && (!editing && old(Fits()) ==> Fits())
      ensures r == Done ==> journal.Some? && journal.value.state == Installed
      ensures r in {Refused, Conflict} && !editing ==> files == old(files)
      ensures !editing ==> r in {Done, Refused, Crashed} && (r == Refused <==> !old(Installable(layout)))
      ensures !editing && r == Done ==>
                && journal.value.files.Keys == Wanted()
                && forall t :: t in Wanted() ==> Holds(t, Intended(BodyOf(t, layout), Get(old(files), t)))
      ensures r == Crashed ==> old(power) < UNINTERRUPTED
    {
      r := Begin(layout);
      if r != Done { return; }
      if !editing { DescribedStands(layout); }
      r := Apply();
    }

    /** The plan of a first installation has no conflict, and leaves every file with the intended content. */
    lemma DescribedStands(layout: string)
      requires journal.Some? && journal.value.state == Prepared && journal.value.files.Keys == Wanted()
      requires AllAcceptable(layout) && Described(journal.value.files, layout)
      ensures Unobstructed()
      ensures forall t, now :: t in Wanted() && Stands(journal.value, t, Get(files, t), now) ==>
                Data(now) == Some(Intended(BodyOf(t, layout), Get(files, t)))
    {
      forall t | t in Wanted()
        ensures Readable(Get(files, t))
        ensures InstallVerdict(Prepared, t, journal.value.files[t], Get(files, t))
                == if Data(Get(files, t)) == Some(journal.value.files[t].applied) then Keep else Write
        ensures journal.value.files[t].applied == Intended(BodyOf(t, layout), Get(files, t))
      {
        DescribedAt(journal.value.files, layout, t);
        DescribedIsWritten(t, journal.value.files[t], BodyOf(t, layout), Get(files, t));
      }
    }

    /** A first installation, up to its journal. */
    method Begin(layout: string) returns (r: Outcome)
      requires Valid() && Body(layout) && (journal.None? || journal.value.state == Uninstalled)
      modifies this`files, this`journal, this`power
      ensures Valid() && r in {Done, Refused, Crashed}
      ensures !editing ==> files == old(files)
      ensures !editing && old(Fits()) ==> Fits()
      ensures r == Done ==> journal.Some? && journal.value.state == Prepared
      ensures old(power) <= power + 1 && (r == Crashed ==> old(power) == 0)
      ensures !editing ==> (r == Refused <==> !old(Installable(layout)))
      ensures !editing && r == Done ==>
                && journal.value.files.Keys == Wanted()
                && Described(journal.value.files, layout)
    {
      Outside();
      var environment := Get(files, Environment);
      if !Readable(environment) || customises(Text(Data(environment))) { return Refused; }
      if !editing && Fits() { OriginalFiles(); }
      var ok, items := Items(layout);
      if !ok { return Refused; }
      if !editing && old(Fits()) {
        forall t | t in items ensures Records(t, items[t]) {
          DescribedAt(items, layout, t);
        }
      }
      r := Prepare(items, !editing && old(Fits()));
    }

    /** The journal of a first installation. */
    method Prepare(items: map<Target, Item>, ghost fit: bool) returns (r: Outcome)
      requires Valid() && Environment in items && Kanshi in items
      requires forall t :: t in items ==> ValidItem(t, items[t]) && Clean(items[t])
      requires fit ==> Fits() && files == origin && forall t :: t in items ==> Records(t, items[t])
      modifies this`journal, this`power
      ensures Valid() && r in {Done, Crashed} && (fit ==> Fits())
      ensures r == Done ==> journal == Some(Record(Prepared, items, map[]))
      ensures old(power) <= power + 1 && (r == Crashed ==> old(power) == 0)
    {
      var saved := Save(Record(Prepared, items, map[]));
      return if saved then Done else Crashed;
    }

    /** Fitting and not installed: the files are the originals. */
    lemma OriginalFiles()
      requires Fits() && (journal.None? || journal.value.state == Uninstalled)
      ensures files == origin
    {
      if journal.Some? {
        forall t ensures Get(files, t) == Get(origin, t) { assert t in journal.value.files ==> Fit(journal.value, t); }
        SameFiles(files, origin);
      }
    }

    /** An installation that lacks the autostart file, or has its earlier template. */
    method Upgrade() returns (r: Outcome)
      requires Valid() && journal.Some? && journal.value.state in {Prepared, Installed} && includeAutostart
      modifies this`files, this`journal, this`power
      ensures Valid() && r in {Done, Refused, Conflict, Crashed}
      ensures !editing ==> files == old(files)
      ensures !editing && old(Fits()) ==> Fits() && r != Conflict
      ensures !editing ==>
                (r in {Done, Crashed} <==>
                   old(Current() || (Unobstructed() && (Begun() || Acceptable(None, Get(files, Autostart))))))
      ensures journal.Some? && journal.value.state in {Prepared, Installed} && (r == Done ==> Current())
      ensures old(power) <= power + 1 && (r == Crashed ==> old(power) == 0)
    {
      var record := journal.value;
      if Current() { return Done; }
      var seen;
      r, seen := InstallPlan();
      if r != Done { return; }
      if Autostart !in record.files {
        r := Add();
      } else {
        r := Renew();
      }
    }

    /** The autostart file as it is joins the installation. */
    method Add() returns (r: Outcome)
      requires Valid() && Resumable() && Autostart !in journal.value.files
      modifies this`files, this`journal, this`power
      ensures Valid() && Resumable() && r in {Done, Refused, Crashed} && (r == Done ==> Current())
      ensures !editing ==> files == old(files) && (r == Refused <==> !old(Acceptable(None, Get(files, Autostart))))
      ensures !editing && old(Fits()) ==> Fits()
      ensures old(power) <= power + 1 && (r == Crashed ==> old(power) == 0)
    {
      var ok, item := ItemFor(Autostart, None);
      if !ok { return Refused; }
      AutostartBounded();
      r := Extend(item);
    }

    /** The autostart file joins the installation, or its template is replaced; originals stay. */
    method Extend(item: Item) returns (r: Outcome)
      requires Valid() && journal.Some? && journal.value.state in {Prepared, Installed}
      requires ValidItem(Autostart, item) && Clean(item)
      requires !editing && Fits() ==> Joins(item)
      modifies this`journal, this`power
      ensures Valid() && journal.Some? && journal.value.state in {Prepared, Installed}
      ensures !editing && old(Fits()) ==> Fits()
      ensures r == Done ==> journal == Some(Extended(old(journal).value, item))
      ensures r in {Done, Crashed} && old(power) <= power + 1 && (r == Crashed ==> old(power) == 0)
    {
      var record := journal.value;
      ExtendSound(record, item);
      if !editing && Fits() { ExtendFits(record, item); }
      var saved := Save(Extended(record, item));
      return if saved then Done else Crashed;
    }

    ghost predicate Joins(item: Item)
      reads this`files
    {
      Records(Autostart, item) && (Get(files, Autostart) == Get(origin, Autostart) || AtApplied(Autostart, item))
    }

    lemma ExtendFits(record: Record, item: Item)
      requires FitsRecord(record) && record.state in {Prepared, Installed} && Joins(item)
      ensures FitsRecord(Extended(record, item))
    {
      var next := Extended(record, item);
      forall t | t in next.files ensures Fit(next, t) {
        if t != Autostart { assert Fit(record, t); }
      }
    }

    /** The earlier template under the same original. */
    method Renew() returns (r: Outcome)
      requires Valid() && journal.Some? && journal.value.state in {Prepared, Installed}
      requires Autostart in journal.value.files && journal.value.files[Autostart].applied == LEGACY_AUTOSTART
      modifies this`journal, this`power
      ensures Valid() && journal.Some? && journal.value.state in {Prepared, Installed}
      ensures !editing && old(Fits()) ==> Fits()
      ensures r == Done ==> Current()
      ensures r in {Done, Crashed} && old(power) <= power + 1 && (r == Crashed ==> old(power) == 0)
    {
      var record := journal.value;
      AutostartBounded();
      assert ItemAccepted(record, Autostart);
      if !editing && Fits() { assert Fit(record, Autostart); }
      r := Extend(record.files[Autostart].(applied := AUTOSTART));
    }

    /** Every file is readable, and applied or ready for it. */
    predicate Unobstructed()
      requires journal.Some?
      reads this`journal, this`files
    {
      forall t :: t in journal.value.files ==>
        && Readable(Get(files, t))
        && InstallVerdict(journal.value.state, t, journal.value.files[t], Get(files, t)) != Clash
    }

    lemma ClashesObstruct(record: Record, seen: map<Target, File>)
      requires journal == Some(record) && seen.Keys == record.files.Keys
      requires forall t :: t in seen ==> seen[t] == Get(files, t) && Readable(seen[t])
      ensures Clashes(record, seen) <==> !Unobstructed()
    {
      if !Clashes(record, seen) {
        forall t | t in seen ensures InstallVerdict(record.state, t, record.files[t], Get(files, t)) != Clash {
          assert VerdictAt(record, seen, t) != Clash;
        }
      }
    }

    /** `_install_plan` */
    method InstallPlan() returns (r: Outcome, seen: map<Target, File>)
      requires Valid() && journal.Some? && journal.value.state in {Prepared, Installed}
      modifies this`files
      ensures r in {Done, Refused, Conflict} && (!editing ==> files == old(files))
      ensures r == Done ==>
                && seen.Keys == journal.value.files.Keys && !Clashes(journal.value, seen)
                && HalfApplied(journal.value, seen, {})
      ensures !editing ==> (r == Done <==> Unobstructed()) && (old(Fits()) ==> r == Done)
    {
      var record := journal.value;
      if !editing && Fits() { FitsReadable(record); }
      var readable;
      readable, seen := Scan(record.files.Keys);
      if !readable { return Refused, seen; }
      if !editing && old(Fits()) { FitsWithoutClash(record, seen); }
      if !editing { ClashesObstruct(record, seen); }
      r := if Clashes(record, seen) then Conflict else Done;
    }

    /** The plan of `install`, then its writes, then its end. */
    method Apply() returns (r: Outcome)
      requires Valid() && journal.Some? && journal.value.state in {Prepared, Installed}
      modifies this`files, this`journal, this`power
      ensures Valid()
      ensures !editing && old(Fits()) ==> Fits() && r in {Done, Crashed}
      ensures r == Done ==> journal.Some? && journal.value.state == Installed
      ensures r in {Refused, Conflict} && !editing ==> files == old(files)
      ensures !editing ==> (r in {Done, Crashed} <==> old(Unobstructed()))
      ensures !editing && r == Done ==>
                && journal.value.files == old(journal).value.files
                && forall t :: t in journal.value.files ==>
                     Stands(old(journal).value, t, Get(old(files), t), Get(files, t))
      ensures r == Crashed ==> old(power) < 4
    {
      var record, seen := journal.value, map[];
      r, seen := InstallPlan();
      if r != Done { return; }
      r := WriteApplied(record, seen);
      if r != Done || record.state == Installed { return; }
      r := Finish(!editing && old(Fits()));
    }

    method Finish(ghost fit: bool) returns (r: Outcome)
      requires Valid() && journal.Some? && journal.value.state == Prepared
      requires fit ==> Fits() && AllApplied(journal.value)
      modifies this`journal, this`power
      ensures Valid() && r in {Done, Crashed} && (r == Crashed ==> old(power) == 0)
      ensures fit ==> Fits()
      ensures r == Done ==> journal == Some(old(journal).value.(state := Installed))
    {
      var record := journal.value;
      var next := record.(state := Installed);
      forall t | t in next.files ensures ItemAccepted(next, t) && CleanAt(next, t) {
        assert ItemAccepted(record, t) && CleanAt(record, t);
      }
      if fit {
        forall t | t in next.files ensures Fit(next, t) { assert Fit(record, t); }
      }
      var saved := Save(next);
      return if saved then Done else Crashed;
    }

    ghost predicate AllApplied(r: Record)
      reads this`files
    {
      forall t :: t in r.files ==> FullyApplied(r.files[t], Get(files, t))
    }

    /** A file of the plan, from `f` to `now`. */
    static predicate Stands(record: Record, t: Target, f: File, now: File)
      requires t in record.files
    {
      if InstallVerdict(record.state, t, record.files[t], f) == Write then FullyApplied(record.files[t], now)
      else now == f
    }

    /** Undisturbed, the files in `done` are as planned and the others as seen. */
    ghost predicate HalfApplied(record: Record, seen: map<Target, File>, done: set<Target>)
      requires seen.Keys == record.files.Keys
      reads this`files, this`editing
    {
      !editing ==> forall t :: t in seen ==>
        if t in done then Stands(record, t, seen[t], Get(files, t)) else Get(files, t) == seen[t]
    }

    method WriteApplied(record: Record, seen: map<Target, File>) returns (r: Outcome)
      requires Valid() && journal == Some(record) && record.state in {Prepared, Installed}
      requires seen.Keys == record.files.Keys && HalfApplied(record, seen, {})
      requires !Clashes(record, seen)
      modifies this`files, this`power
      ensures r in {Done, Disturbed, Crashed} && (!editing ==> r != Disturbed)
      ensures !editing && old(Fits()) ==> Fits() && (r == Done ==> AllApplied(record))
      ensures r == Done ==> HalfApplied(record, seen, seen.Keys)
      ensures r == Crashed ==> old(power) < 3
      ensures r == Done ==> old(power) <= power + 3
    {
      ghost var fit := !editing && Fits();
      if fit { KeptIsApplied(record, seen); }
      var order := Order();
      ghost var done: set<Target> := {};
      for i := 0 to |order|
        invariant old(power) <= power + i
        invariant forall t :: t in done <==> t in order[..i]
        invariant HalfApplied(record, seen, done)
        invariant fit ==> Fits()
      {
        TakeNext(order, i);
        r := WriteNext(order[i], record, seen, done, fit);
        if r != Done { return; }
        done := done + {order[i]};
      }
      forall t ensures t in order[..|order|] { OrderCovers(t); }
      return Done;
    }

    /** A fitting file that the plan does not write has its applied content. */
    lemma KeptIsApplied(record: Record, seen: map<Target, File>)
      requires Valid() && journal == Some(record) && record.state in {Prepared, Installed} && Fits()
      requires seen.Keys == record.files.Keys && forall t :: t in seen ==> seen[t] == Get(files, t)
      ensures forall t, now :: t in seen && Stands(record, t, seen[t], now) ==> FullyApplied(record.files[t], now)
    {
      forall t, now | t in seen && Stands(record, t, seen[t], now) ensures FullyApplied(record.files[t], now) {
        FitVerdict(t, record);
      }
    }

    method WriteNext(t: Target, record: Record, seen: map<Target, File>, ghost done: set<Target>, ghost fit: bool)
      returns (r: Outcome)
      requires Valid() && journal == Some(record) && record.state in {Prepared, Installed}
      requires seen.Keys == record.files.Keys && HalfApplied(record, seen, done) && t !in done
      requires !Clashes(record, seen) && (fit ==> !editing && Fits())
      modifies this`files, this`power
      ensures r in {Done, Disturbed, Crashed} && (!editing ==> r != Disturbed)
      ensures r == Done ==> HalfApplied(record, seen, done + {t})
      ensures fit ==> Fits()
      ensures old(power) <= power + 1 && (r == Crashed ==> old(power) == 0)
    {
      if t !in record.files { return Done; }
      assert VerdictAt(record, seen, t) != Clash;
      r := WriteOne(t, record, seen[t]);
    }

    /** One file of the plan: written where the plan says so, kept otherwise. */
    method WriteOne(t: Target, record: Record, f: File) returns (r: Outcome)
      requires Valid() && journal == Some(record) && record.state in {Prepared, Installed} && t in record.files
      requires !editing ==> f == Get(files, t)
      requires InstallVerdict(record.state, t, record.files[t], f) != Clash
      modifies this`files, this`power
      ensures r in {Done, Disturbed, Crashed} && (!editing ==> r != Disturbed)
      ensures !editing ==> forall u :: u != t ==> Get(files, u) == Get(old(files), u)
      ensures !editing && old(Fits()) ==> Fits()
      ensures !editing && r == Done ==> Stands(record, t, f, Get(files, t))
      ensures old(power) <= power + 1 && (r == Crashed ==> old(power) == 0)
    {
      var item := record.files[t];
      if !editing && Fits() { FitVerdict(t, record); }
      if InstallVerdict(record.state, t, item, f) != Write { return Done; }
      r := WriteTarget(t, Some(item.applied), item, f);
      if !editing && old(Fits()) {
        forall u | u in record.files ensures Fit(record, u) { assert old(Fit(record, u)); }
      }
    }

    lemma FitsUnobstructed()
      requires Valid() && Resumable() && Fits()
      ensures Unobstructed()
    {
      FitsReadable(journal.value);
      forall t | t in journal.value.files
        ensures InstallVerdict(journal.value.state, t, journal.value.files[t], Get(files, t)) != Clash
      {
        FitVerdict(t, journal.value);
      }
    }

    lemma FitsWithoutClash(record: Record, seen: map<Target, File>)
      requires Valid() && journal == Some(record) && record.state in {Prepared, Installed} && Fits()
      requires seen.Keys == record.files.Keys && forall t :: t in seen ==> seen[t] == Get(files, t)
      ensures !Clashes(record, seen)
    {
      forall t | t in seen ensures VerdictAt(record, seen, t) != Clash { FitVerdict(t, record); }
    }

    /** A fitting file is kept only when it has the applied content. */
    lemma FitVerdict(t: Target, record: Record)
      requires Valid() && journal == Some(record) && record.state in {Prepared, Installed}
      requires t in record.files && Fits()
      ensures var v := InstallVerdict(record.state, t, record.files[t], Get(files, t));
              && v != Clash && (v == Write ==> record.state == Prepared && Records(t, record.files[t]))
              && (v == Keep ==> FullyApplied(record.files[t], Get(files, t)))
    {
      assert Fit(record, t) && CleanAt(record, t) && ItemAccepted(record, t);
    }

    // ------------------------------------------------------------- uninstall

    /** The recorded original, under the recorded metadata, is the original file. */
    lemma Original(t: Target, item: Item, f: File)
      requires Records(t, item) && Data(f) == item.before && !Foreign(item, f)
      ensures f == Get(origin, t)
    {
    }

    /** Whatever a fitting file holds, restoring it gives its original, unless a mark straddles. */
    lemma FitRestores(t: Target, r: Record)
      requires Sound(r) && FitsRecord(r) && t in r.files && r.state in {Prepared, Installed, Restoring}
      requires t == Autostart || t !in origin || !Straddles(origin[t].data) || r.state == Restoring
      ensures RestoreVerdict(r, t, Get(files, t)) == To(r.files[t].before)
    {
      assert Fit(r, t) && ItemAccepted(r, t) && CleanAt(r, t);
      if r.files[t].body.Some? {
        NoStraddle();
        AppliedRestores(r.files[t], r.state == Prepared);
      }
    }

    lemma FitReadable(t: Target, r: Record)
      requires Sound(r) && FitsRecord(r) && t in r.files && r.state in {Prepared, Installed, Restoring}
      ensures Readable(Get(files, t))
    {
      assert Fit(r, t) && ItemAccepted(r, t);
      AutostartBounded();
    }

    lemma FitsReadable(r: Record)
      requires Sound(r) && FitsRecord(r) && r.state in {Prepared, Installed, Restoring}
      ensures forall t :: t in r.files ==> Readable(Get(files, t))
    {
      forall t | t in r.files ensures Readable(Get(files, t)) { FitReadable(t, r); }
    }

    /** An installed block after a straddling original is not recognised any more. */
    lemma FitStraddles(t: Target, r: Record)
      requires Sound(r) && FitsRecord(r) && t in r.files && r.state == Installed
      requires t != Autostart && t in origin && Straddles(origin[t].data)
      ensures RestoreVerdict(r, t, Get(files, t)) == Changed
    {
      assert Fit(r, t) && ItemAccepted(r, t) && CleanAt(r, t);
      AppliedRestores(r.files[t], false);
    }

    lemma FitDecides()
      requires Valid() && Recorded() && Fits()
      ensures AllReadable() && (Restorable() ==> !Disputed())
      ensures journal.value.state == Installed && !Restorable() ==> Disputed()
    {
      var record := journal.value;
      FitsReadable(record);
      if Restorable() {
        forall t | t in record.files ensures RestoreVerdict(record, t, Get(files, t)).To? { FitRestores(t, record); }
      } else if record.state == Installed {
        assert ValidRecord(record);
        var t :| t in origin && t != Autostart && Straddles(origin[t].data);
        FitStraddles(t, record);
      }
    }

    lemma NoStraddle()
      ensures !Straddles("")
    {
      EndMark(0);
    }

    /** There is something to restore. */
    predicate Recorded()
      reads this`journal
    {
      journal.Some? && journal.value.state != Uninstalled
    }

    predicate AllReadable()
      requires Recorded()
      reads this`journal, this`files
    {
      forall t :: t in journal.value.files ==> Readable(Get(files, t))
    }

    /** Some file cannot be restored as it is now. */
    predicate Disputed()
      requires Valid() && Recorded()
      reads this`journal, this`files
    {
      exists t :: t in journal.value.files && RestoreVerdict(journal.value, t, Get(files, t)).Changed?
    }

    /**
     `uninstall`. It restores every file as `Restored` says of its current content, so
     users keep what they wrote around a managed block; on a conflict it changes nothing.
     Uninterrupted, and with readable files, it ends in a conflict exactly when it does not
     say so of some content.
     Without edits, whatever died before, every file ends as it was before the first
     install, provided that no original ends in a mark without its newline.
     */
    method Uninstall() returns (r: Outcome)
      requires Valid()
      modifies this`files, this`journal, this`power
      ensures Valid() && (r == NotInstalled <==> old(journal) == None)
      ensures r in {Refused, Conflict, NotInstalled} && !editing ==> files == old(files) && journal == old(journal)
      ensures !editing && r == Done && old(journal).value.state != Uninstalled ==>
                forall t :: t in old(journal).value.files ==>
                  RestoreVerdict(old(journal).value, t, Get(old(files), t)) == To(Data(Get(files, t)))
      ensures !editing && old(Fits()) && Restorable() ==> Fits() && r in {NotInstalled, Done, Crashed}
      ensures !editing && old(Fits()) && Restorable() && r in {NotInstalled, Done} ==> files == origin
      ensures !editing && old(Fits()) && old(journal).Some? && old(journal).value.state == Installed ==>
                r in {Done, Conflict, Crashed} && (r != Crashed ==> (r == Conflict <==> !Restorable()))
      ensures !editing && old(power) >= UNINTERRUPTED && old(Recorded() && AllReadable()) ==>
                r == if old(Disputed()) then Conflict else Done
      ensures r == Crashed ==> old(power) < UNINTERRUPTED
    {
      if journal.None? { return NotInstalled; }
      var record := journal.value;
      if record.state == Uninstalled {
        if Fits() { OriginalFiles(); }
        return Done;
      }
      if !editing && Fits() { FitDecides(); }
      var seen;
      r, seen := RestorePlan();
      if r != Done { return; }
      r := CarryOut(record, seen, !editing && old(Fits()) && Restorable());
    }

    /** `_restore_plan` */
    method RestorePlan() returns (r: Outcome, seen: map<Target, File>)
      requires Valid() && Recorded()
      modifies this`files
      ensures r in {Done, Refused, Conflict} && (r == Done ==> Planned(journal.value, seen))
      ensures !editing ==> files == old(files) && (AllReadable() ==> r == if Disputed() then Conflict else Done)
      ensures !editing && r == Done ==> forall t :: t in seen ==> seen[t] == Get(files, t)
    {
      var readable;
      var record := journal.value;
      readable, seen := Scan(record.files.Keys);
      if !readable { return Refused, seen; }
      r := if exists t :: t in seen && RestoreVerdict(record, t, seen[t]).Changed? then Conflict else Done;
    }

    /** The part of `uninstall` that its plan allows. */
    method CarryOut(record: Record, seen: map<Target, File>, ghost fit: bool) returns (r: Outcome)
      requires Valid() && journal == Some(record) && record.state in {Prepared, Installed, Restoring}
      requires Planned(record, seen) && (!editing ==> forall t :: t in seen ==> seen[t] == Get(files, t))
      requires fit ==> !editing && Fits() && Restorable()
      modifies this`files, this`journal, this`power
      ensures Valid() && r in {Done, Disturbed, Crashed} && (!editing ==> r != Disturbed)
      ensures !editing && r == Done ==> forall t :: t in seen ==>
                RestoreVerdict(record, t, seen[t]) == To(Data(Get(files, t)))
      ensures fit ==> Fits() && (r == Done ==> files == origin)
      ensures r == Crashed ==> old(power) < UNINTERRUPTED
    {
      if record.state != Restoring {
        var saved := Announce(record, seen, fit);
        if !saved { return Crashed; }
      }
      var now := journal.value;
      r := WriteBack(now, seen, fit);
      if r != Done { return; }
      r := Close(now, fit);
    }

    /** Every target has a place to go. */
    predicate Planned(r: Record, seen: map<Target, File>) {
      && seen.Keys == r.files.Keys && (r.state == Restoring ==> r.restore.Keys == r.files.Keys)
      && forall t :: t in seen ==> RestoreVerdict(r, t, seen[t]).To? && Readable(seen[t])
    }

    /** The complete restoration targets, journalled before every change. */
    method Announce(record: Record, seen: map<Target, File>, ghost fit: bool) returns (saved: bool)
      requires Valid() && journal == Some(record) && record.state in {Prepared, Installed} && Planned(record, seen)
      requires fit ==> Fits() && Restorable() && forall t :: t in seen ==> seen[t] == Get(files, t)
      modifies this`journal, this`power
      ensures Valid() && saved == (old(power) > 0) && old(power) <= power + 1
      ensures fit ==> Fits()
      ensures saved ==> journal == Some(record.(state := Restoring, restore := Moves(record, seen)))
    {
      MovesSound(record, seen);
      var next := record.(state := Restoring, restore := Moves(record, seen));
      if fit {
        forall t | t in next.files ensures Fit(next, t) {
          FitRestores(t, record);
          assert Fit(record, t);
        }
      }
      saved := Save(next);
    }

    /** Undisturbed, the files in `done` are at their targets and the others as seen. */
    ghost predicate HalfBack(now: Record, seen: map<Target, File>, done: set<Target>)
      requires seen.Keys == now.restore.Keys
      reads this`files, this`editing
    {
      !editing ==> forall t :: t in seen ==>
        if t in done then Data(Get(files, t)) == now.restore[t].target else Get(files, t) == seen[t]
    }

    method WriteBack(now: Record, seen: map<Target, File>, ghost fit: bool) returns (r: Outcome)
      requires Valid() && journal == Some(now) && now.state == Restoring
      requires seen.Keys == now.restore.Keys == now.files.Keys && HalfBack(now, seen, {})
      requires fit ==> !editing && Fits()
      modifies this`files, this`power
      ensures r in {Done, Disturbed, Crashed} && (!editing ==> r != Disturbed)
      ensures !editing && r == Done ==> forall t :: t in seen ==> Data(Get(files, t)) == now.restore[t].target
      ensures fit ==> Fits()
      ensures r == Crashed ==> old(power) < 3
      ensures r == Done ==> old(power) <= power + 3
    {
      var order := Order();
      ghost var done: set<Target> := {};
      for i := 0 to |order|
        invariant old(power) <= power + i
        invariant forall t :: t in done <==> t in order[..i]
        invariant HalfBack(now, seen, done)
        invariant fit ==> Fits()
      {
        TakeNext(order, i);
        r := WriteBackOne(order[i], now, seen, done, fit);
        if r != Done { return; }
        done := done + {order[i]};
      }
      forall t ensures t in order[..|order|] { OrderCovers(t); }
      return Done;
    }

    method WriteBackOne(t: Target, now: Record, seen: map<Target, File>, ghost done: set<Target>, ghost fit: bool)
      returns (r: Outcome)
      requires Valid() && journal == Some(now) && now.state == Restoring
      requires seen.Keys == now.restore.Keys == now.files.Keys && HalfBack(now, seen, done) && t !in done
      requires fit ==> !editing && Fits()
      modifies this`files, this`power
      ensures r in {Done, Disturbed, Crashed} && (!editing ==> r != Disturbed)
      ensures r == Done ==> HalfBack(now, seen, done + {t})
      ensures fit ==> Fits()
      ensures old(power) <= power + 1 && (r == Crashed ==> old(power) == 0)
    {
      if t !in now.files { return Done; }
      r := PutBack(t, now, seen[t], fit);
    }

    /** A file that is not at its target yet is written. */
    method PutBack(t: Target, now: Record, f: File, ghost fit: bool) returns (r: Outcome)
      requires journal == Some(now) && now.state == Restoring && t in now.files && t in now.restore
      requires !editing ==> f == Get(files, t)
      requires fit ==> !editing && Fits()
      modifies this`files, this`power
      ensures r in {Done, Disturbed, Crashed} && (!editing ==> r != Disturbed)
      ensures !editing ==> forall u :: u != t ==> Get(files, u) == Get(old(files), u)
      ensures !editing && r == Done ==> Data(Get(files, t)) == now.restore[t].target
      ensures fit ==> Fits()
      ensures old(power) <= power + 1 && (r == Crashed ==> old(power) == 0)
    {
      if Data(f) == now.restore[t].target { return Done; }
      r := WriteTarget(t, now.restore[t].target, now.files[t], f);
      if fit {
        forall u | u in now.files ensures Fit(now, u) {
          assert old(Fit(now, u));
          if u == t && r == Done { Original(t, now.files[t], Get(files, t)); }
        }
      }
    }

    /** The end of a restoration. */
    method Close(now: Record, ghost fit: bool) returns (r: Outcome)
      requires Valid() && journal == Some(now) && now.state == Restoring
      requires fit ==> Fits()
      requires fit ==> forall t :: t in now.files ==> t in now.restore && Data(Get(files, t)) == now.restore[t].target
      modifies this`journal, this`power
      ensures Valid() && r in {Done, Crashed} && (r == Crashed ==> old(power) == 0)
      ensures fit ==> Fits() && (r == Done ==> files == origin)
    {
      UninstalledSound(now);
      if fit { BackToOrigin(now); }
      var saved := Save(now.(state := Uninstalled));
      return if saved then Done else Crashed;
    }

    lemma BackToOrigin(now: Record)
      requires FitsRecord(now) && now.state == Restoring
      requires forall t :: t in now.files ==> t in now.restore && Data(Get(files, t)) == now.restore[t].target
      ensures files == origin && FitsRecord(now.(state := Uninstalled))
    {
      forall t | t in now.files ensures Get(files, t) == Get(origin, t) {
        assert Fit(now, t);
        Original(t, now.files[t], Get(files, t));
      }
      SameFiles(files, origin);
    }

    /**
     Every run without edits: any installs and uninstalls, dying anywhere, and one
     uninterrupted uninstall at the end leave the files as they were at the beginning.
     */
    method AnyHistory(calls: seq<string>) returns (r: Outcome)
      requires Valid() && Fits() && Restorable() && forall layout :: layout in calls ==> Body(layout)
      modifies this
      ensures Valid() && r in {NotInstalled, Done} && files == origin
    {
      editing := false;
      for i := 0 to |calls|
        invariant Valid() && Fits() && !editing
      {
        power := *;
        var removing: bool := *;
        if removing { var _ := Uninstall(); } else { var _ := Install(calls[i]); }
      }
      power := UNINTERRUPTED;
      r := Uninstall();
    }
  }

  lemma AutostartBounded()
    ensures |AUTOSTART| <= MAX_CONTENT && |LEGACY_AUTOSTART| <= MAX_CONTENT && AUTOSTART != LEGACY_AUTOSTART
  {
    assert |AUTOSTART| == |LEGACY_AUTOSTART| + 12;
  }

  lemma EnvironmentBody()
    ensures Body(ENVIRONMENT_BODY)
  {
    assert Body(BACKENDS) && Body(OUTPUTS);
  }

  lemma SameFiles(a: Files, b: Files)
    requires forall t :: Get(a, t) == Get(b, t)
    ensures a == b
  {
    forall t ensures t in a <==> t in b { assert Get(a, t) == Get(b, t); }
    forall t | t in a ensures a[t] == b[t] { assert Get(a, t) == Get(b, t); }
  }
}
