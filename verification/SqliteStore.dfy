/** `SqliteSnapshotStore`: four tables of text columns. How ids, times and JSON are written as text
    is left open, except that reading undoes writing. */
module SqliteStores {
  import opened Types
  import opened Processes
  import opened Stores
  import opened StoreCalls
  import opened SqlTables

  datatype Codecs = Codecs(
    idText: nat -> string, textId: string -> Option<nat>,
    timeText: Time -> string, textTime: string -> Option<Time>,
    configText: SandboxConfig -> string, textConfig: string -> Option<SandboxConfig>,
    dispositionText: Disposition -> string, textDisposition: string -> Option<Disposition>,
    commandText: seq<string> -> string, textCommand: string -> Option<seq<string>>,
    statusText: Status -> string, textStatus: string -> Option<Status>)
  {
    ghost predicate Lawful() {
      && (forall x: nat :: textId(idText(x)) == Some(x))
      && (forall x :: textTime(timeText(x)) == Some(x))
      && (forall x :: textConfig(configText(x)) == Some(x))
      && (forall x :: textDisposition(dispositionText(x)) == Some(x))
      && (forall x :: textCommand(commandText(x)) == Some(x))
      && (forall x :: textStatus(statusText(x)) == Some(x))
    }

    function OptId(id: Option<nat>): Option<string> {
      match id case Some(x) => Some(idText(x)) case None => None
    }

    function OptTime(t: Option<Time>): Option<string> {
      match t case Some(x) => Some(timeText(x)) case None => None
    }
  }

  // ---- Columns, and how records are written to and read from them ----

  datatype SnapshotCols = SnapshotCols(
    sandboxId: string, affinityName: Option<string>, template: string, configJson: string,
    createdAt: string, note: Option<string>)

  datatype AffinityCols = AffinityCols(sandboxId: Option<string>, snapshotId: Option<string>, updatedAt: string)

  datatype ActiveCols = ActiveCols(configJson: string, createdAt: string)

  datatype ProcessCols = ProcessCols(
    sandboxId: string, requestedSandboxId: Option<string>, disposition: string, destroyOnExpiry: int,
    commandJson: string, status: string, stdoutPath: string, stderrPath: string,
    backendPid: Option<nat>, exitCode: Option<int>,
    startedAt: string, finishedAt: Option<string>, expiresAt: Option<string>)

  function WriteSnapshot(c: Codecs): SnapshotMetadata -> SnapshotCols {
    (s: SnapshotMetadata) => SnapshotCols(
      c.idText(s.sandboxId), s.affinityName, s.template, c.configText(s.config), c.timeText(s.createdAt), s.note)
  }

  function WriteAffinity(c: Codecs): AffinityRecord -> AffinityCols {
    (a: AffinityRecord) => AffinityCols(c.OptId(a.sandboxId), c.OptId(a.snapshotId), c.timeText(a.updatedAt))
  }

  function WriteActive(c: Codecs): ActiveRecord -> ActiveCols {
    (a: ActiveRecord) => ActiveCols(c.configText(a.config), c.timeText(a.createdAt))
  }

  function WriteProcess(c: Codecs): ProcessInfo -> ProcessCols {
    (p: ProcessInfo) => ProcessCols(
      c.idText(p.sandboxId), c.OptId(p.requestedSandboxId), c.dispositionText(p.disposition),
      if p.destroyOnExpiry then 1 else 0, c.commandText(p.command), c.statusText(p.status),
      p.stdoutPath, p.stderrPath, p.backendPid, p.exitCode,
      c.timeText(p.startedAt), c.OptTime(p.finishedAt), c.OptTime(p.expiresAt))
  }

  /** An optional column that must be readable if it is there. */
  function ReadOpt<T>(text: Option<string>, read: string -> Option<T>): Option<Option<T>> {
    match text
    case None => Some(None)
    case Some(t) => match read(t) case Some(x) => Some(Some(x)) case None => None
  }

  function ReadSnapshot(c: Codecs): Row<SnapshotCols> -> Option<SnapshotMetadata> {
    (row: Row<SnapshotCols>) =>
      var id, sandbox := c.textId(row.key), c.textId(row.cols.sandboxId);
      var config, at := c.textConfig(row.cols.configJson), c.textTime(row.cols.createdAt);
      if id.Some? && sandbox.Some? && config.Some? && at.Some? then
        Some(SnapshotMetadata(id.value, sandbox.value, row.cols.affinityName, row.cols.template,
                              config.value, at.value, row.cols.note))
      else None
  }

  function ReadAffinity(c: Codecs): Row<AffinityCols> -> Option<AffinityRecord> {
    (row: Row<AffinityCols>) =>
      var sandbox, snapshot := ReadOpt(row.cols.sandboxId, c.textId), ReadOpt(row.cols.snapshotId, c.textId);
      var at := c.textTime(row.cols.updatedAt);
      if sandbox.Some? && snapshot.Some? && at.Some? then
        Some(AffinityRecord(row.key, sandbox.value, snapshot.value, at.value))
      else None
  }

  function ReadActive(c: Codecs): Row<ActiveCols> -> Option<ActiveRecord> {
    (row: Row<ActiveCols>) =>
      var id, config, at := c.textId(row.key), c.textConfig(row.cols.configJson), c.textTime(row.cols.createdAt);
      if id.Some? && config.Some? && at.Some? then Some(ActiveRecord(id.value, config.value, at.value)) else None
  }

  /** `process_from_row` */
  function ReadProcess(c: Codecs): Row<ProcessCols> -> Option<ProcessInfo> {
    (row: Row<ProcessCols>) =>
      var id, sandbox := c.textId(row.key), c.textId(row.cols.sandboxId);
      var requested := ReadOpt(row.cols.requestedSandboxId, c.textId);
      var disposition, command := c.textDisposition(row.cols.disposition), c.textCommand(row.cols.commandJson);
      var status, startedAt := c.textStatus(row.cols.status), c.textTime(row.cols.startedAt);
      var finishedAt, expiresAt := ReadOpt(row.cols.finishedAt, c.textTime), ReadOpt(row.cols.expiresAt, c.textTime);
      if && id.Some? && sandbox.Some? && requested.Some? && disposition.Some? && command.Some?
         && status.Some? && startedAt.Some? && finishedAt.Some? && expiresAt.Some?
      then
        Some(ProcessInfo(id.value, sandbox.value, requested.value, disposition.value, row.cols.destroyOnExpiry != 0,
                         command.value, status.value, row.cols.stdoutPath, row.cols.stderrPath,
                         row.cols.backendPid, row.cols.exitCode, startedAt.value, finishedAt.value, expiresAt.value))
      else None
  }

  // No record loses anything on its way through its row.

  lemma SnapshotRoundTrip(c: Codecs, s: SnapshotMetadata)
    requires c.Lawful()
    ensures ReadSnapshot(c)(Row(c.idText(s.id), WriteSnapshot(c)(s))) == Some(s)
  {
  }

  lemma AffinityRoundTrip(c: Codecs, a: AffinityRecord)
    requires c.Lawful()
    ensures ReadAffinity(c)(Row(a.name, WriteAffinity(c)(a))) == Some(a)
  {
  }

  lemma ActiveRoundTrip(c: Codecs, a: ActiveRecord)
    requires c.Lawful()
    ensures ReadActive(c)(Row(c.idText(a.sandboxId), WriteActive(c)(a))) == Some(a)
  {
  }

  lemma ProcessRoundTrip(c: Codecs, p: ProcessInfo)
    requires c.Lawful()
    ensures ReadProcess(c)(Row(c.idText(p.id), WriteProcess(c)(p))) == Some(p)
  {
  }

  // ---- The database as a store ----

  function NameText(): string -> string { (name: string) => name }

  /** Records are filed under their own keys. */
  ghost predicate Keyed(s: Store) {
    && (forall k <- s.snapshots :: s.snapshots[k].id == k)
    && (forall n <- s.affinities :: s.affinities[n].name == n)
    && (forall k <- s.active :: s.active[k].sandboxId == k)
    && (forall k <- s.processes :: s.processes[k].id == k)
  }

  ghost predicate HoldsSnapshots(c: Codecs, rows: seq<Row<SnapshotCols>>, m: map<SnapshotId, SnapshotMetadata>) {
    Holds(rows, m, c.idText, WriteSnapshot(c))
  }

  ghost predicate HoldsAffinities(c: Codecs, rows: seq<Row<AffinityCols>>, m: map<string, AffinityRecord>) {
    Holds(rows, m, NameText(), WriteAffinity(c))
  }

  ghost predicate HoldsActive(c: Codecs, rows: seq<Row<ActiveCols>>, m: map<SandboxId, ActiveRecord>) {
    Holds(rows, m, c.idText, WriteActive(c))
  }

  ghost predicate HoldsProcesses(c: Codecs, rows: seq<Row<ProcessCols>>, m: map<ProcessId, ProcessInfo>) {
    Holds(rows, m, c.idText, WriteProcess(c))
  }

  lemma IdsInjective(c: Codecs)
    requires c.Lawful()
    ensures Injective(c.idText) && Injective(NameText())
  {
    forall j: nat, k: nat | c.idText(j) == c.idText(k) ensures j == k {
      assert c.textId(c.idText(j)) == Some(j) && c.textId(c.idText(k)) == Some(k);
    }
  }

  // ---- The statements ----

  /** `ON CONFLICT(name) DO UPDATE SET sandbox_id = excluded.sandbox_id, updated_at = excluded.updated_at` */
  function SetSandbox(id: Option<string>, at: string): AffinityCols -> AffinityCols {
    (a: AffinityCols) => a.(sandboxId := id, updatedAt := at)
  }

  /** `ON CONFLICT(name) DO UPDATE SET snapshot_id = excluded.snapshot_id, updated_at = excluded.updated_at` */
  function SetSnapshot(id: Option<string>, at: string): AffinityCols -> AffinityCols {
    (a: AffinityCols) => a.(snapshotId := id, updatedAt := at)
  }

  /** `UPDATE affinities SET sandbox_id = NULL, updated_at = ?2 WHERE sandbox_id = ?1` */
  function ClearSandbox(id: string, at: string): AffinityCols -> AffinityCols {
    (a: AffinityCols) => if a.sandboxId == Some(id) then a.(sandboxId := None, updatedAt := at) else a
  }

  /** `ON CONFLICT DO UPDATE SET` every column. */
  function Replace<C>(cols: C): C -> C { (before: C) => cols }

  function TemplateIs(template: string): SnapshotCols -> bool { (s: SnapshotCols) => s.template == template }

  lemma BindRefines(c: Codecs, rows: seq<Row<AffinityCols>>, s: Store, name: string, id: SandboxId, at: Time)
    requires c.Lawful() && HoldsAffinities(c, rows, s.affinities)
    ensures HoldsAffinities(c,
              Upsert(rows, name, AffinityCols(Some(c.idText(id)), None, c.timeText(at)),
                     SetSandbox(Some(c.idText(id)), c.timeText(at))),
              s.BindSandbox(name, id, at).affinities)
  {
    IdsInjective(c);
    hide Holds;
    HoldsUpsert(rows, s.affinities, NameText(), WriteAffinity(c), name,
                AffinityRecord(name, Some(id), s.Pointer(name), at),
                AffinityCols(Some(c.idText(id)), None, c.timeText(at)), SetSandbox(Some(c.idText(id)), c.timeText(at)));
  }

  lemma SetSnapshotRefines(c: Codecs, rows: seq<Row<AffinityCols>>, s: Store, name: string, id: SnapshotId, at: Time)
    requires c.Lawful() && HoldsAffinities(c, rows, s.affinities)
    ensures HoldsAffinities(c,
              Upsert(rows, name, AffinityCols(None, Some(c.idText(id)), c.timeText(at)),
                     SetSnapshot(Some(c.idText(id)), c.timeText(at))),
              s.SetAffinitySnapshot(name, id, at).affinities)
  {
    IdsInjective(c);
    hide Holds;
    HoldsUpsert(rows, s.affinities, NameText(), WriteAffinity(c), name,
                AffinityRecord(name, s.Bound(name), Some(id), at),
                AffinityCols(None, Some(c.idText(id)), c.timeText(at)),
                SetSnapshot(Some(c.idText(id)), c.timeText(at)));
  }

  lemma ClearRefines(c: Codecs, rows: seq<Row<AffinityCols>>, s: Store, id: SandboxId, at: Time)
    requires c.Lawful() && HoldsAffinities(c, rows, s.affinities)
    ensures HoldsAffinities(c, UpdateAll(rows, ClearSandbox(c.idText(id), c.timeText(at))),
                            s.ClearBinding(id, at).affinities)
  {
    IdsInjective(c);
    hide Holds;
    HoldsUpdate(rows, s.affinities, s.ClearBinding(id, at).affinities, NameText(), WriteAffinity(c),
                ClearSandbox(c.idText(id), c.timeText(at)));
  }

  lemma InsertRefines(c: Codecs, rows: seq<Row<SnapshotCols>>, s: Store, snapshot: SnapshotMetadata)
    requires c.Lawful() && HoldsSnapshots(c, rows, s.snapshots) && snapshot.id !in s.snapshots
    ensures !HasKey(rows, c.idText(snapshot.id))
    ensures HoldsSnapshots(c, rows + [Row(c.idText(snapshot.id), WriteSnapshot(c)(snapshot))],
                           s.AddSnapshot(snapshot).snapshots)
  {
    IdsInjective(c);
    var key, cols := c.idText(snapshot.id), WriteSnapshot(c)(snapshot);
    assert !HasKey(rows, key);
    hide Holds, Injective;
    HoldsUpsert(rows, s.snapshots, c.idText, WriteSnapshot(c), snapshot.id, snapshot, cols, Replace(cols));
    UpsertAbsent(rows, key, cols, Replace(cols));
  }

  lemma UpsertActiveRefines(c: Codecs, rows: seq<Row<ActiveCols>>, s: Store, a: ActiveRecord)
    requires c.Lawful() && HoldsActive(c, rows, s.active)
    ensures HoldsActive(c, Upsert(rows, c.idText(a.sandboxId), WriteActive(c)(a), Replace(WriteActive(c)(a))),
                        s.UpsertActive(a.sandboxId, a.config, a.createdAt).active)
  {
    IdsInjective(c);
    hide Holds, Injective;
    var cols := WriteActive(c)(a);
    HoldsUpsert(rows, s.active, c.idText, WriteActive(c), a.sandboxId, a, cols, Replace(cols));
  }

  lemma RemoveActiveRefines(c: Codecs, rows: seq<Row<ActiveCols>>, s: Store, id: SandboxId)
    requires c.Lawful() && HoldsActive(c, rows, s.active)
    ensures HoldsActive(c, Delete(rows, c.idText(id)), s.RemoveActive(id).active)
  {
    IdsInjective(c);
    hide Holds, Injective;
    HoldsDelete(rows, s.active, c.idText, WriteActive(c), id);
  }

  lemma UpsertProcessRefines(c: Codecs, rows: seq<Row<ProcessCols>>, s: Store, p: ProcessInfo)
    requires c.Lawful() && HoldsProcesses(c, rows, s.processes)
    ensures HoldsProcesses(c, Upsert(rows, c.idText(p.id), WriteProcess(c)(p), Replace(WriteProcess(c)(p))),
                           s.UpsertProcess(p).processes)
  {
    IdsInjective(c);
    hide Holds, Injective;
    var cols := WriteProcess(c)(p);
    HoldsUpsert(rows, s.processes, c.idText, WriteProcess(c), p.id, p, cols, Replace(cols));
  }

  lemma RemoveProcessRefines(c: Codecs, rows: seq<Row<ProcessCols>>, s: Store, id: ProcessId)
    requires c.Lawful() && HoldsProcesses(c, rows, s.processes)
    ensures HoldsProcesses(c, Delete(rows, c.idText(id)), s.RemoveProcess(id).processes)
  {
    IdsInjective(c);
    hide Holds, Injective;
    HoldsDelete(rows, s.processes, c.idText, WriteProcess(c), id);
  }

  lemma KeyedKept(s: Store, call: Call)
    requires Keyed(s)
    ensures Keyed(Effect(s, call))
  {
  }

  lemma ListRefines(c: Codecs, rows: seq<Row<SnapshotCols>>, s: Store, template: string)
    requires c.Lawful() && HoldsSnapshots(c, rows, s.snapshots) && Keyed(s)
    ensures var r := ReadAll(Where(rows, TemplateIs(template)), ReadSnapshot(c));
            r.Some? && ListsValues(r.value, OfTemplate(s.snapshots, template))
  {
    IdsInjective(c);
    hide Holds, Injective, ListsValues;
    var n := OfTemplate(s.snapshots, template);
    HoldsWhere(rows, s.snapshots, n, c.idText, WriteSnapshot(c), TemplateIs(template));
    forall k <- n ensures ReadSnapshot(c)(Row(c.idText(k), WriteSnapshot(c)(n[k]))) == Some(n[k]) {
      SnapshotRoundTrip(c, n[k]);
    }
    ReadsValues(Where(rows, TemplateIs(template)), n, c.idText, WriteSnapshot(c), ReadSnapshot(c));
  }

  /** `contents` is the store the rows stand for; every method keeps the two together. */
  class SqliteSnapshotStore {
    const codecs: Codecs
    var snapshots: seq<Row<SnapshotCols>>
    var affinities: seq<Row<AffinityCols>>
    var active: seq<Row<ActiveCols>>
    var processes: seq<Row<ProcessCols>>
    ghost var contents: Store

    ghost predicate Valid()
      reads this
    {
      && codecs.Lawful() && Keyed(contents)
      && HoldsSnapshots(codecs, snapshots, contents.snapshots)
      && HoldsAffinities(codecs, affinities, contents.affinities)
      && HoldsActive(codecs, active, contents.active)
      && HoldsProcesses(codecs, processes, contents.processes)
    }

    constructor (codecs: Codecs)
      requires codecs.Lawful()
      ensures Valid() && contents == EMPTY && this.codecs == codecs
    {
      this.codecs, contents := codecs, EMPTY;
      snapshots, affinities, active, processes := [], [], [], [];
    }

    /** A plain `INSERT`, which fails if the key is taken. */
    method CreateSnapshot(id: SnapshotId, sandboxId: SandboxId, config: SandboxConfig, at: Time, note: Option<string>)
      returns (reply: Reply)
      requires Valid() && id !in contents.snapshots
      modifies this`snapshots, this`contents
      ensures Valid() && contents == old(contents).AddSnapshot(SnapshotOf(id, sandboxId, config, at, note))
      ensures reply == ASnapshot(Some(SnapshotOf(id, sandboxId, config, at, note)))
    {
      hide Holds, HoldsSnapshots, HoldsAffinities, HoldsActive, HoldsProcesses, Keyed;
      var snapshot := SnapshotMetadata(id, sandboxId, config.affinityName, config.template, config, at, note);
      var key := codecs.idText(id);
      InsertRefines(codecs, snapshots, contents, snapshot);
      KeyedKept(contents, Call.CreateSnapshot(id, sandboxId, config, at, note));
      if HasKey(snapshots, key) { return Failure; }
      snapshots := snapshots + [Row(key, WriteSnapshot(codecs)(snapshot))];
      contents := contents.AddSnapshot(snapshot);
      reply := ASnapshot(Some(snapshot));
    }

    method GetSnapshot(id: SnapshotId) returns (reply: Reply)
      requires Valid()
      ensures reply == ASnapshot(Lookup(contents.snapshots, id))
    {
      hide Holds;
      if id in contents.snapshots { SnapshotRoundTrip(codecs, contents.snapshots[id]); }
      ReadsLookup(snapshots, contents.snapshots, codecs.idText, WriteSnapshot(codecs), ReadSnapshot(codecs), id);
      var found := ReadOne(snapshots, codecs.idText(id), ReadSnapshot(codecs));
      reply := match found case None => Failure case Some(s) => ASnapshot(s);
    }

    method ListForTemplate(template: string) returns (reply: Reply)
      requires Valid()
      ensures reply.Snapshots? && ListsValues(reply.snapshots, OfTemplate(contents.snapshots, template))
    {
      hide Holds;
      ListRefines(codecs, snapshots, contents, template);
      var found := ReadAll(Where(snapshots, TemplateIs(template)), ReadSnapshot(codecs));
      reply := match found case None => Failure case Some(s) => Snapshots(s);
    }

    method BindSandbox(name: string, id: SandboxId, at: Time)
      requires Valid()
      modifies this`affinities, this`contents
      ensures Valid() && contents == old(contents).BindSandbox(name, id, at)
    {
      hide Holds, HoldsSnapshots, HoldsAffinities, HoldsActive, HoldsProcesses, Keyed;
      BindRefines(codecs, affinities, contents, name, id, at);
      KeyedKept(contents, Call.BindSandbox(name, id, at));
      affinities := Upsert(affinities, name, AffinityCols(Some(codecs.idText(id)), None, codecs.timeText(at)),
                           SetSandbox(Some(codecs.idText(id)), codecs.timeText(at)));
      contents := contents.BindSandbox(name, id, at);
    }

    method ClearSandboxBinding(id: SandboxId, at: Time)
      requires Valid()
      modifies this`affinities, this`contents
      ensures Valid() && contents == old(contents).ClearBinding(id, at)
    {
      hide Holds, HoldsSnapshots, HoldsAffinities, HoldsActive, HoldsProcesses, Keyed;
      ClearRefines(codecs, affinities, contents, id, at);
      KeyedKept(contents, Call.ClearSandboxBinding(id, at));
      affinities := UpdateAll(affinities, ClearSandbox(codecs.idText(id), codecs.timeText(at)));
      contents := contents.ClearBinding(id, at);
    }

    method SetAffinitySnapshot(name: string, id: SnapshotId, at: Time)
      requires Valid()
      modifies this`affinities, this`contents
      ensures Valid() && contents == old(contents).SetAffinitySnapshot(name, id, at)
    {
      hide Holds, HoldsSnapshots, HoldsAffinities, HoldsActive, HoldsProcesses, Keyed;
      SetSnapshotRefines(codecs, affinities, contents, name, id, at);
      KeyedKept(contents, Call.SetAffinitySnapshot(name, id, at));
      affinities := Upsert(affinities, name, AffinityCols(None, Some(codecs.idText(id)), codecs.timeText(at)),
                           SetSnapshot(Some(codecs.idText(id)), codecs.timeText(at)));
      contents := contents.SetAffinitySnapshot(name, id, at);
    }

    method GetAffinity(name: string) returns (reply: Reply)
      requires Valid()
      ensures reply == AnAffinity(Lookup(contents.affinities, name))
    {
      hide Holds;
      if name in contents.affinities { AffinityRoundTrip(codecs, contents.affinities[name]); }
      ReadsLookup(affinities, contents.affinities, NameText(), WriteAffinity(codecs), ReadAffinity(codecs), name);
      var found := ReadOne(affinities, name, ReadAffinity(codecs));
      reply := match found case None => Failure case Some(a) => AnAffinity(a);
    }

    method UpsertActiveSandbox(id: SandboxId, config: SandboxConfig, at: Time)
      requires Valid()
      modifies this`active, this`contents
      ensures Valid() && contents == old(contents).UpsertActive(id, config, at)
    {
      hide Holds, HoldsSnapshots, HoldsAffinities, HoldsActive, HoldsProcesses, Keyed;
      var cols := WriteActive(codecs)(ActiveRecord(id, config, at));
      UpsertActiveRefines(codecs, active, contents, ActiveRecord(id, config, at));
      KeyedKept(contents, Call.UpsertActiveSandbox(id, config, at));
      active := Upsert(active, codecs.idText(id), cols, Replace(cols));
      contents := contents.UpsertActive(id, config, at);
    }

    method RemoveActiveSandbox(id: SandboxId)
      requires Valid()
      modifies this`active, this`contents
      ensures Valid() && contents == old(contents).RemoveActive(id)
    {
      hide Holds, HoldsSnapshots, HoldsAffinities, HoldsActive, HoldsProcesses, Keyed;
      RemoveActiveRefines(codecs, active, contents, id);
      KeyedKept(contents, Call.RemoveActiveSandbox(id));
      active := Delete(active, codecs.idText(id));
      contents := contents.RemoveActive(id);
    }

    method ListActiveSandboxes() returns (reply: Reply)
      requires Valid()
      ensures reply.Actives? && ListsValues(reply.actives, contents.active)
    {
      IdsInjective(codecs);
      hide Holds, Injective;
      ghost var m := contents.active;
      forall k <- m ensures ReadActive(codecs)(Row(codecs.idText(k), WriteActive(codecs)(m[k]))) == Some(m[k]) {
        ActiveRoundTrip(codecs, m[k]);
      }
      ReadsValues(active, contents.active, codecs.idText, WriteActive(codecs), ReadActive(codecs));
      var found := ReadAll(active, ReadActive(codecs));
      reply := match found case None => Failure case Some(a) => Actives(a);
    }

    method UpsertProcess(p: ProcessInfo)
      requires Valid()
      modifies this`processes, this`contents
      ensures Valid() && contents == old(contents).UpsertProcess(p)
    {
      hide Holds, HoldsSnapshots, HoldsAffinities, HoldsActive, HoldsProcesses, Keyed;
      var cols := WriteProcess(codecs)(p);
      UpsertProcessRefines(codecs, processes, contents, p);
      KeyedKept(contents, Call.UpsertProcess(p));
      processes := Upsert(processes, codecs.idText(p.id), cols, Replace(cols));
      contents := contents.UpsertProcess(p);
    }

    method GetProcess(id: ProcessId) returns (reply: Reply)
      requires Valid()
      ensures reply == AProcess(Lookup(contents.processes, id))
    {
      hide Holds;
      if id in contents.processes { ProcessRoundTrip(codecs, contents.processes[id]); }
      ReadsLookup(processes, contents.processes, codecs.idText, WriteProcess(codecs), ReadProcess(codecs), id);
      var found := ReadOne(processes, codecs.idText(id), ReadProcess(codecs));
      reply := match found case None => Failure case Some(p) => AProcess(p);
    }

    method ListProcesses() returns (reply: Reply)
      requires Valid()
      ensures reply.ProcessList? && ListsValues(reply.processes, contents.processes)
    {
      IdsInjective(codecs);
      hide Holds, Injective;
      ghost var m := contents.processes;
      forall k <- m ensures ReadProcess(codecs)(Row(codecs.idText(k), WriteProcess(codecs)(m[k]))) == Some(m[k]) {
        ProcessRoundTrip(codecs, m[k]);
      }
      ReadsValues(processes, contents.processes, codecs.idText, WriteProcess(codecs), ReadProcess(codecs));
      var found := ReadAll(processes, ReadProcess(codecs));
      reply := match found case None => Failure case Some(p) => ProcessList(p);
    }

    method RemoveProcess(id: ProcessId)
      requires Valid()
      modifies this`processes, this`contents
      ensures Valid() && contents == old(contents).RemoveProcess(id)
    {
      hide Holds, HoldsSnapshots, HoldsAffinities, HoldsActive, HoldsProcesses, Keyed;
      RemoveProcessRefines(codecs, processes, contents, id);
      KeyedKept(contents, Call.RemoveProcess(id));
      processes := Delete(processes, codecs.idText(id));
      contents := contents.RemoveProcess(id);
    }

    /** The same contract as that of the in-memory store. */
    method Perform(call: Call) returns (reply: Reply)
      requires Valid() && Allowed(contents, call)
      modifies this
      ensures Valid() && contents == Effect(old(contents), call) && Answers(old(contents), call, reply)
    {
      hide Valid;
      reply := Done;
      match call {
        case CreateSnapshot(k, id, config, at, note) => reply := CreateSnapshot(k, id, config, at, note);
        case GetSnapshot(id) => reply := GetSnapshot(id);
        case ListForTemplate(template) => reply := ListForTemplate(template);
        case BindSandbox(name, id, at) => BindSandbox(name, id, at);
        case ClearSandboxBinding(id, at) => ClearSandboxBinding(id, at);
        case SetAffinitySnapshot(name, id, at) => SetAffinitySnapshot(name, id, at);
        case GetAffinity(name) => reply := GetAffinity(name);
        case UpsertActiveSandbox(id, config, at) => UpsertActiveSandbox(id, config, at);
        case RemoveActiveSandbox(id) => RemoveActiveSandbox(id);
        case ListActiveSandboxes => reply := ListActiveSandboxes();
        case UpsertProcess(p) => UpsertProcess(p);
        case GetProcess(id) => reply := GetProcess(id);
        case ListProcesses => reply := ListProcesses();
        case RemoveProcess(id) => RemoveProcess(id);
      }
    }

    method PerformAll(calls: seq<Call>) returns (replies: seq<Reply>)
      requires Valid() && AllAllowed(contents, calls)
      modifies this
      ensures Valid() && Conversation(old(contents), calls, replies)
      ensures contents == EffectAll(old(contents), calls)
      decreases |calls|
    {
      if calls == [] { return []; }
      var first := Perform(calls[0]);
      var rest := PerformAll(calls[1..]);
      replies := [first] + rest;
      assert replies[1..] == rest;
    }
  }
}
