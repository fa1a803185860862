/**
 * Folder-trigger tables of the journal. A scope keeps the last snapshot of a watched
 * folder; each change of a file leaves an event row that outlives the file itself, so
 * that one version of one path is announced once in the life of the scope.
 */
module FolderTriggers {
  import opened Options

  type Path = string
  type Version = nat

  datatype File = File(path: Path, version: Version)

  datatype Scan = Scan(files: seq<File>, complete: bool, truncated: bool)

  /** A rule is known by its key; the digest also covers the folder and the patterns. */
  datatype Rule = Rule(key: nat, digest: nat)

  datatype Scope = Scope(digest: nat, root: nat, files: map<Path, Version>)

  /** The event id is a digest of these three, taken to be injective. */
  datatype Id = Id(key: nat, path: Path, version: Version)

  /** Rows are kept in the order they were inserted. */
  datatype Row = Row(id: Id, delivered: bool)

  datatype Store = Store(scopes: map<nat, Scope>, rows: seq<Row>)

  /** What the clock, the patterns of the rule and the byte budgets say about one call. */
  datatype Weather = Weather(matched: bool, live: bool, fits: bool)

  datatype Error =
    InputInvalid | AdmissionExpired | ScopeMismatch | RootChanged | BaselineIncomplete | CapacityReached | PendingEvents

  datatype Reply = Committed(store: Store, queued: seq<Id>) | Refused(error: Error)

  const MAX_FILES: nat := 2_000
  const MAX_SCOPES: nat := 32

  function Min(a: nat, b: nat): nat { if a < b then a else b }

  function PendingLimit(entries: nat): nat { Min(1_000, entries) }

  function HistoryLimit(entries: nat): nat {
    var most := Min(10_000, entries * 4);
    if most > 32 then most else 32
  }

  // ----- Rows

  function Find(rows: seq<Row>, id: Id): Option<Row> {
    if rows == [] then None
    else if rows[|rows| - 1].id == id then Some(rows[|rows| - 1])
    else Find(rows[..|rows| - 1], id)
  }

  function Pending(rows: seq<Row>): nat {
    if rows == [] then 0
    else Pending(rows[..|rows| - 1]) + if rows[|rows| - 1].delivered then 0 else 1
  }

  function Fresh(rows: seq<Row>, ids: seq<Id>): nat {
    if ids == [] then 0
    else Fresh(rows, ids[..|ids| - 1]) + if Find(rows, ids[|ids| - 1]).None? then 1 else 0
  }

  datatype Filed = Filed(rows: seq<Row>, queued: seq<Id>) | Full

  /** Files events one after the other: a known one is queued again only while undelivered. */
  function FileAll(rows: seq<Row>, ids: seq<Id>, limit: nat): Filed {
    if ids == [] then Filed(rows, [])
    else
      var before, id := FileAll(rows, ids[..|ids| - 1], limit), ids[|ids| - 1];
      if before.Full? then Full
      else
        var found := Find(before.rows, id);
        if found.Some? then
          Filed(before.rows, if found.value.delivered then before.queued else before.queued + [id])
        else if |before.rows| >= limit then Full
        else Filed(before.rows + [Row(id, false)], before.queued + [id])
  }

  function MarkDelivered(rows: seq<Row>, id: Id): seq<Row> {
    if rows == [] then []
    else
      var last := rows[|rows| - 1];
      MarkDelivered(rows[..|rows| - 1], id) + [if last.id == id then last.(delivered := true) else last]
  }

  function Without(rows: seq<Row>, key: nat): seq<Row> {
    if rows == [] then []
    else
      var init, last := rows[..|rows| - 1], rows[|rows| - 1];
      if last.id.key == key then Without(init, key) else Without(init, key) + [last]
  }

  // ----- Transactions

  predicate Distinct(files: seq<File>) {
    forall i, j :: 0 <= i < j < |files| ==> files[i].path != files[j].path
  }

  predicate Whole(scan: Scan) { scan.complete && !scan.truncated }

  function Supplied(files: seq<File>): map<Path, Version> {
    if files == [] then map[]
    else Supplied(files[..|files| - 1])[files[|files| - 1].path := files[|files| - 1].version]
  }

  /** The events of the files whose version is not the one already known. */
  function Changes(key: nat, known: map<Path, Version>, files: seq<File>): seq<Id> {
    if files == [] then []
    else
      var file := files[|files| - 1];
      Changes(key, known, files[..|files| - 1]) +
      if file.path in known && known[file.path] == file.version then [] else [Id(key, file.path, file.version)]
  }

  function Known(store: Store, key: nat): map<Path, Version> {
    if key in store.scopes then store.scopes[key].files else map[]
  }

  function NextFiles(store: Store, key: nat, scan: Scan): map<Path, Version> {
    if Whole(scan) then Supplied(scan.files) else Known(store, key) + Supplied(scan.files)
  }

  function Announced(store: Store, key: nat, scan: Scan): seq<Id> {
    if key in store.scopes then Changes(key, store.scopes[key].files, scan.files) else []
  }

  function CheckScope(store: Store, rule: Rule, root: Option<nat>): Option<Error> {
    if rule.key !in store.scopes then None
    else if store.scopes[rule.key].digest != rule.digest then Some(ScopeMismatch)
    else if root.Some? && store.scopes[rule.key].root != root.value then Some(RootChanged)
    else None
  }

  function Commit(store: Store, entries: nat, rule: Rule, root: nat, scan: Scan, weather: Weather): Reply {
    if |scan.files| > MAX_FILES || !Distinct(scan.files) || !weather.matched then Refused(InputInvalid)
    else if !weather.live then Refused(AdmissionExpired)
    else
      var wrong, stored := CheckScope(store, rule, Some(root)), rule.key in store.scopes;
      if wrong.Some? then Refused(wrong.value)
      else if !stored && !Whole(scan) then Refused(BaselineIncomplete)
      else if !stored && |store.scopes| >= MAX_SCOPES then Refused(CapacityReached)
      else
        var files, ids := NextFiles(store, rule.key, scan), Announced(store, rule.key, scan);
        if |files| > MAX_FILES || !weather.fits then Refused(CapacityReached)
        else if Pending(store.rows) + Fresh(store.rows, ids) > PendingLimit(entries) then Refused(CapacityReached)
        else
          var filed := FileAll(store.rows, ids, HistoryLimit(entries));
          if filed.Full? then Refused(CapacityReached)
          else Committed(Store(store.scopes[rule.key := Scope(rule.digest, root, files)], filed.rows), filed.queued)
  }

  datatype Step =
    | Snapshot(rule: Rule, root: nat, scan: Scan, weather: Weather)
    | Forget(rule: Rule, root: nat, path: Path, weather: Weather)
    | Acknowledge(rule: Rule, id: Id)
    | Retire(rule: Rule)

  /** One changed file is recorded as a scan that saw nothing else. */
  function Record(rule: Rule, root: nat, file: File, weather: Weather): Step {
    Snapshot(rule, root, Scan([file], false, false), weather)
  }

  function Reject(store: Store, step: Step): Option<Error> {
    match step
    case Snapshot(_, _, _, _) => None
    case Forget(rule, root, _, weather) =>
      if !weather.matched then Some(InputInvalid)
      else if CheckScope(store, rule, Some(root)).Some? then CheckScope(store, rule, Some(root))
      else if rule.key !in store.scopes then Some(BaselineIncomplete) else None
    case Acknowledge(rule, id) =>
      if CheckScope(store, rule, None).Some? then CheckScope(store, rule, None)
      else if Find(store.rows, id).Some? && id.key != rule.key then Some(ScopeMismatch) else None
    case Retire(rule) =>
      if CheckScope(store, rule, None).Some? then CheckScope(store, rule, None)
      else if exists row <- store.rows :: row.id.key == rule.key && !row.delivered then Some(PendingEvents) else None
  }

  function After(store: Store, step: Step, entries: nat): Store {
    if Reject(store, step).Some? then store
    else match step
      case Snapshot(rule, root, scan, weather) =>
        var reply := Commit(store, entries, rule, root, scan, weather);
        if reply.Committed? then reply.store else store
      case Forget(rule, _, path, _) =>
        var scope := store.scopes[rule.key];
        store.(scopes := store.scopes[rule.key := scope.(files := scope.files - {path})])
      case Acknowledge(rule, id) =>
        if id.key == rule.key then store.(rows := MarkDelivered(store.rows, id)) else store
      case Retire(rule) => Store(store.scopes - {rule.key}, Without(store.rows, rule.key))
  }

  /** The events a step hands to the caller for delivery. */
  function Queued(store: Store, step: Step, entries: nat): seq<Id> {
    if step.Snapshot? then
      var reply := Commit(store, entries, step.rule, step.root, step.scan, step.weather);
      if reply.Committed? then reply.queued else []
    else []
  }

  const EMPTY: Store := Store(map[], [])

  function Run(steps: seq<Step>, entries: nat): Store {
    if steps == [] then EMPTY else After(Run(steps[..|steps| - 1], entries), steps[|steps| - 1], entries)
  }

  // ----- Lemmas on rows

  ghost predicate Unique(rows: seq<Row>) {
    forall i, j :: 0 <= i < j < |rows| ==> rows[i].id != rows[j].id
  }

  predicate Has(rows: seq<Row>, id: Id) { Find(rows, id).Some? }

  predicate Delivered(rows: seq<Row>, id: Id) { Has(rows, id) && Find(rows, id).value.delivered }

  lemma FindAppend(rows: seq<Row>, row: Row, id: Id)
    ensures Find(rows + [row], id) == if row.id == id then Some(row) else Find(rows, id)
    ensures Pending(rows + [row]) == Pending(rows) + if row.delivered then 0 else 1
  {
    assert (rows + [row])[..|rows|] == rows;
  }

  lemma {:induction false} FindIn(rows: seq<Row>, id: Id)
    ensures Has(rows, id) ==> Find(rows, id).value in rows && Find(rows, id).value.id == id
    ensures !Has(rows, id) ==> forall row <- rows :: row.id != id
  {
    if rows != [] {
      FindIn(rows[..|rows| - 1], id);
      assert rows == rows[..|rows| - 1] + [rows[|rows| - 1]];
    }
  }

  ghost predicate NoRepeat(ids: seq<Id>) {
    forall i, j :: 0 <= i < j < |ids| ==> ids[i] != ids[j]
  }

  /** Filing adds one row for each event that had none, and queues what is not delivered. */
  lemma {:induction false} FileAllExact(rows: seq<Row>, ids: seq<Id>, limit: nat, id: Id)
    requires NoRepeat(ids) && FileAll(rows, ids, limit).Filed?
    ensures var filed := FileAll(rows, ids, limit);
            && (Find(filed.rows, id) == if Has(rows, id) || id !in ids then Find(rows, id) else Some(Row(id, false)))
            && (id in filed.queued <==> id in ids && !Delivered(rows, id))
  {
    if ids != [] {
      var init, last := ids[..|ids| - 1], ids[|ids| - 1];
      assert ids == init + [last];
      FileAllExact(rows, init, limit, id);
      FileAllExact(rows, init, limit, last);
      FindAppend(FileAll(rows, init, limit).rows, Row(last, false), id);
    }
  }

  lemma {:induction false} FileAllKeeps(rows: seq<Row>, ids: seq<Id>, limit: nat)
    requires Unique(rows) && NoRepeat(ids) && FileAll(rows, ids, limit).Filed?
    ensures var filed := FileAll(rows, ids, limit);
            && rows <= filed.rows && Unique(filed.rows) && NoRepeat(filed.queued)
            && Pending(filed.rows) == Pending(rows) + Fresh(rows, ids)
            && (|rows| <= limit ==> |filed.rows| <= limit)
  {
    if ids != [] {
      var init, last := ids[..|ids| - 1], ids[|ids| - 1];
      var before := FileAll(rows, init, limit);
      FileAllKeeps(rows, init, limit);
      FileAllExact(rows, init, limit, last);
      FindIn(before.rows, last);
      FindAppend(before.rows, Row(last, false), last);
    }
  }

  lemma {:induction false} MarkFinds(rows: seq<Row>, id: Id, k: Id)
    ensures Find(MarkDelivered(rows, id), k) ==
            if k == id && Has(rows, k) then Some(Find(rows, k).value.(delivered := true)) else Find(rows, k)
  {
    if rows != [] {
      var init, last := rows[..|rows| - 1], rows[|rows| - 1];
      MarkFinds(init, id, k);
      FindAppend(MarkDelivered(init, id), if last.id == id then last.(delivered := true) else last, k);
    }
  }

  lemma {:induction false} MarkKeeps(rows: seq<Row>, id: Id)
    ensures |MarkDelivered(rows, id)| == |rows| && Pending(MarkDelivered(rows, id)) <= Pending(rows)
    ensures forall i :: 0 <= i < |rows| ==> MarkDelivered(rows, id)[i].id == rows[i].id
  {
    if rows != [] {
      var init, last := rows[..|rows| - 1], rows[|rows| - 1];
      MarkKeeps(init, id);
      FindAppend(MarkDelivered(init, id), if last.id == id then last.(delivered := true) else last, id);
    }
  }

  lemma {:induction false} WithoutFinds(rows: seq<Row>, key: nat, k: Id)
    ensures Find(Without(rows, key), k) == if k.key == key then None else Find(rows, k)
  {
    if rows != [] {
      var init, last := rows[..|rows| - 1], rows[|rows| - 1];
      WithoutFinds(init, key, k);
      FindAppend(Without(init, key), last, k);
    }
  }

  lemma {:induction false} WithoutKeeps(rows: seq<Row>, key: nat)
    requires Unique(rows)
    ensures Unique(Without(rows, key))
    ensures Pending(Without(rows, key)) <= Pending(rows) && |Without(rows, key)| <= |rows|
  {
    if rows != [] {
      var init, last := rows[..|rows| - 1], rows[|rows| - 1];
      WithoutKeeps(init, key);
      FindAppend(Without(init, key), last, last.id);
      WithoutFinds(init, key, last.id);
      FindIn(Without(init, key), last.id);
      FindIn(init, last.id);
    }
  }

  // ----- Lemmas on scans

  lemma {:induction false} SuppliedExact(files: seq<File>, path: Path)
    requires Distinct(files)
    ensures path in Supplied(files) <==> exists file <- files :: file.path == path
    ensures forall file <- files :: file.path == path ==> Supplied(files)[path] == file.version
  {
    if files != [] {
      SuppliedExact(files[..|files| - 1], path);
      assert files == files[..|files| - 1] + [files[|files| - 1]];
    }
  }

  lemma {:induction false} ChangesExact(key: nat, known: map<Path, Version>, files: seq<File>)
    requires Distinct(files)
    ensures NoRepeat(Changes(key, known, files))
    ensures forall id :: id in Changes(key, known, files) <==>
              id.key == key && File(id.path, id.version) in files && !(id.path in known && known[id.path] == id.version)
  {
    if files != [] {
      ChangesExact(key, known, files[..|files| - 1]);
      assert files == files[..|files| - 1] + [files[|files| - 1]];
    }
  }

  // ----- What a commit does

  /** The snapshot after a commit: a complete scan replaces it, any other only adds to it. */
  lemma CommitFiles(store: Store, entries: nat, rule: Rule, root: nat, scan: Scan, weather: Weather, path: Path)
    requires Commit(store, entries, rule, root, scan, weather).Committed?
    ensures var post := Commit(store, entries, rule, root, scan, weather).store;
            && rule.key in post.scopes
            && var files := post.scopes[rule.key].files;
               && (forall version :: File(path, version) in scan.files ==> path in files && files[path] == version)
               && ((forall file <- scan.files :: file.path != path) ==>
                     if scan.complete && !scan.truncated then path !in files
                     else (path in files <==> path in Known(store, rule.key))
                          && (path in files ==> files[path] == Known(store, rule.key)[path]))
  {
    SuppliedExact(scan.files, path);
  }

  /** The events after a commit: one row for each change, and every undelivered one of them is queued once. */
  lemma CommitEvents(store: Store, entries: nat, rule: Rule, root: nat, scan: Scan, weather: Weather, id: Id)
    requires Unique(store.rows) && Commit(store, entries, rule, root, scan, weather).Committed?
    ensures var reply := Commit(store, entries, rule, root, scan, weather);
            var changed := id in Announced(store, rule.key, scan);
            && (changed <==>
                  && rule.key == id.key && rule.key in store.scopes && File(id.path, id.version) in scan.files
                  && !(id.path in store.scopes[id.key].files && store.scopes[id.key].files[id.path] == id.version))
            && Find(reply.store.rows, id) ==
                 (if changed && !Has(store.rows, id) then Some(Row(id, false)) else Find(store.rows, id))
            && (id in reply.queued <==> changed && !Delivered(store.rows, id))
            && NoRepeat(reply.queued) && Unique(reply.store.rows) && store.rows <= reply.store.rows
  {
    var ids := Announced(store, rule.key, scan);
    ChangesExact(rule.key, Known(store, rule.key), scan.files);
    FileAllExact(store.rows, ids, HistoryLimit(entries), id);
    FileAllKeeps(store.rows, ids, HistoryLimit(entries));
  }

  // ----- Whole runs

  ghost predicate RowsFit(rows: seq<Row>, entries: nat) {
    Unique(rows) && Pending(rows) <= PendingLimit(entries) && |rows| <= HistoryLimit(entries)
  }

  ghost predicate ScopesFit(scopes: map<nat, Scope>) {
    |scopes| <= MAX_SCOPES && forall key <- scopes :: |scopes[key].files| <= MAX_FILES
  }

  ghost predicate Owned(store: Store) {
    forall id :: Has(store.rows, id) ==> id.key in store.scopes
  }

  /** What the code keeps of every store it can reach. */
  ghost predicate Fits(store: Store, entries: nat) {
    RowsFit(store.rows, entries) && ScopesFit(store.scopes) && Owned(store)
  }

  lemma CommitScopes(store: Store, entries: nat, rule: Rule, root: nat, scan: Scan, weather: Weather)
    requires ScopesFit(store.scopes) && Commit(store, entries, rule, root, scan, weather).Committed?
    ensures ScopesFit(Commit(store, entries, rule, root, scan, weather).store.scopes)
  {
    var post := Commit(store, entries, rule, root, scan, weather).store;
    if rule.key in store.scopes {
      assert post.scopes.Keys == store.scopes.Keys;
    } else {
      assert post.scopes.Keys == store.scopes.Keys + {rule.key};
    }
  }

  lemma CommitFits(store: Store, entries: nat, rule: Rule, root: nat, scan: Scan, weather: Weather)
    requires Fits(store, entries) && Commit(store, entries, rule, root, scan, weather).Committed?
    ensures Fits(Commit(store, entries, rule, root, scan, weather).store, entries)
  {
    var post := Commit(store, entries, rule, root, scan, weather).store;
    CommitScopes(store, entries, rule, root, scan, weather);
    assert RowsFit(post.rows, entries) by {
      ChangesExact(rule.key, Known(store, rule.key), scan.files);
      FileAllKeeps(store.rows, Announced(store, rule.key, scan), HistoryLimit(entries));
    }
    forall id | Has(post.rows, id)
      ensures id.key in post.scopes
    {
      CommitEvents(store, entries, rule, root, scan, weather, id);
    }
  }

  lemma StepFits(store: Store, step: Step, entries: nat)
    requires Fits(store, entries)
    ensures Fits(After(store, step, entries), entries)
  {
    if Reject(store, step).None? {
      match step
      case Snapshot(rule, root, scan, weather) =>
        if Commit(store, entries, rule, root, scan, weather).Committed? {
          CommitFits(store, entries, rule, root, scan, weather);
        }
      case Forget(rule, root, path, weather) => ForgetFits(store, step, entries);
      case Acknowledge(rule, id) =>
        forall k { MarkFinds(store.rows, id, k); }
        MarkKeeps(store.rows, id);
      case Retire(rule) => RetireFits(store, step, entries);
    }
  }

  lemma ForgetFits(store: Store, step: Step, entries: nat)
    requires Fits(store, entries) && step.Forget? && Reject(store, step).None?
    ensures Fits(After(store, step, entries), entries)
  {
    var post := After(store, step, entries);
    var was, now := store.scopes[step.rule.key].files, post.scopes[step.rule.key].files;
    assert post.scopes.Keys == store.scopes.Keys;
    assert now.Keys <= was.Keys;
    SmallerMap(was, now);
  }

  lemma RetireFits(store: Store, step: Step, entries: nat)
    requires Fits(store, entries) && step.Retire? && Reject(store, step).None?
    ensures Fits(After(store, step, entries), entries)
  {
    var post := After(store, step, entries);
    WithoutKeeps(store.rows, step.rule.key);
    assert ScopesFit(post.scopes) by {
      assert post.scopes.Keys <= store.scopes.Keys;
      SmallerMap(store.scopes, post.scopes);
    }
    forall id | Has(post.rows, id)
      ensures id.key in post.scopes
    {
      WithoutFinds(store.rows, step.rule.key, id);
    }
  }

  lemma SmallerSet<T>(a: set<T>, b: set<T>)
    requires b <= a
    ensures |b| <= |a|
  {
    assert a == b + (a - b);
    assert |b + (a - b)| == |b| + |a - b|;
  }

  lemma SmallerMap<K, V>(a: map<K, V>, b: map<K, V>)
    requires b.Keys <= a.Keys
    ensures |b| <= |a|
  {
    SmallerSet(a.Keys, b.Keys);
    assert |b.Keys| == |b| && |a.Keys| == |a|;
  }

  lemma {:induction false} FitsAlways(steps: seq<Step>, entries: nat)
    ensures Fits(Run(steps, entries), entries)
  {
    if steps != [] {
      FitsAlways(steps[..|steps| - 1], entries);
      StepFits(Run(steps[..|steps| - 1], entries), steps[|steps| - 1], entries);
    }
  }

  predicate Retires(store: Store, step: Step, key: nat) {
    step.Retire? && step.rule.key == key && Reject(store, step).None?
  }

  /** Between retirements a row only ever goes from queued to delivered; only a retirement removes it. */
  lemma StepKeepsRow(store: Store, step: Step, entries: nat, id: Id)
    requires Fits(store, entries)
    ensures var post := After(store, step, entries);
            if Retires(store, step, id.key)
            then !Has(post.rows, id) && (Has(store.rows, id) ==> Delivered(store.rows, id))
            else && (Has(store.rows, id) ==> Has(post.rows, id))
                 && (Delivered(store.rows, id) ==> Delivered(post.rows, id))
                 && (Has(post.rows, id) && !Has(store.rows, id) ==> id in Queued(store, step, entries))
                 && (Delivered(post.rows, id) && !Delivered(store.rows, id) ==> step.Acknowledge? && step.id == id)
  {
    if Reject(store, step).None? {
      match step
      case Snapshot(rule, root, scan, weather) =>
        if Commit(store, entries, rule, root, scan, weather).Committed? {
          CommitEvents(store, entries, rule, root, scan, weather, id);
        }
      case Forget(rule, root, path, weather) =>
      case Acknowledge(rule, k) => MarkFinds(store.rows, k, id);
      case Retire(rule) =>
        WithoutFinds(store.rows, rule.key, id);
        FindIn(store.rows, id);
    }
  }

  /** How often an event without a row was queued. */
  function NewlyQueued(steps: seq<Step>, entries: nat, id: Id): nat {
    if steps == [] then 0
    else
      var init, last := steps[..|steps| - 1], steps[|steps| - 1];
      var store := Run(init, entries);
      NewlyQueued(init, entries, id) +
      if Has(store.rows, id) then 0 else multiset(Queued(store, last, entries))[id]
  }

  /** How often the scope was retired while it held the event's row. */
  function RetiredWith(steps: seq<Step>, entries: nat, id: Id): nat {
    if steps == [] then 0
    else
      var init, last := steps[..|steps| - 1], steps[|steps| - 1];
      var store := Run(init, entries);
      RetiredWith(init, entries, id) + if Retires(store, last, id.key) && Has(store.rows, id) then 1 else 0
  }

  lemma {:induction false} OnceInside(ids: seq<Id>, id: Id)
    requires NoRepeat(ids)
    ensures multiset(ids)[id] == if id in ids then 1 else 0
  {
    if ids != [] {
      assert ids == ids[..|ids| - 1] + [ids[|ids| - 1]];
      OnceInside(ids[..|ids| - 1], id);
    }
  }

  /** One version of one path is queued as new once in the life of its scope, and then has its row. */
  lemma {:induction false} NewOncePerScope(steps: seq<Step>, entries: nat, id: Id)
    ensures NewlyQueued(steps, entries, id) ==
            RetiredWith(steps, entries, id) + if Has(Run(steps, entries).rows, id) then 1 else 0
  {
    if steps != [] {
      var init, last := steps[..|steps| - 1], steps[|steps| - 1];
      var store := Run(init, entries);
      NewOncePerScope(init, entries, id);
      FitsAlways(init, entries);
      StepKeepsRow(store, last, entries, id);
      if last.Snapshot? && Commit(store, entries, last.rule, last.root, last.scan, last.weather).Committed? {
        CommitEvents(store, entries, last.rule, last.root, last.scan, last.weather, id);
        OnceInside(Queued(store, last, entries), id);
      }
    }
  }

  /** The files of the scan that created the scope, since it was last retired. */
  function Baseline(steps: seq<Step>, entries: nat, key: nat): map<Path, Version> {
    if steps == [] then map[]
    else
      var was, now := Run(steps[..|steps| - 1], entries), Run(steps, entries);
      if key in now.scopes && key !in was.scopes then now.scopes[key].files
      else Baseline(steps[..|steps| - 1], entries, key)
  }

  lemma SnapshotStep(store: Store, step: Step, entries: nat, key: nat, path: Path)
    requires Fits(store, entries) && key in store.scopes
    requires var post := After(store, step, entries); key in post.scopes && path in post.scopes[key].files
    ensures var version := After(store, step, entries).scopes[key].files[path];
            (path in store.scopes[key].files && version == store.scopes[key].files[path])
            || Has(After(store, step, entries).rows, Id(key, path, version))
  {
    var post := After(store, step, entries);
    if step.Snapshot? && step.rule.key == key && post != store {
      CommitFiles(store, entries, step.rule, step.root, step.scan, step.weather, path);
      if file :| file in step.scan.files && file.path == path {
        CommitEvents(store, entries, step.rule, step.root, step.scan, step.weather, Id(key, path, file.version));
      }
    }
  }

  /** Every version in a snapshot comes from the baseline of the scope or has its one event row. */
  lemma {:induction false} SnapshotExplained(steps: seq<Step>, entries: nat, key: nat, path: Path)
    requires var store := Run(steps, entries); key in store.scopes && path in store.scopes[key].files
    ensures var store, baseline := Run(steps, entries), Baseline(steps, entries, key);
            var version := store.scopes[key].files[path];
            (path in baseline && baseline[path] == version)
            || (exists i :: && 0 <= i < |store.rows| && store.rows[i].id == Id(key, path, version)
                            && forall j :: 0 <= j < |store.rows| && j != i ==> store.rows[j].id != store.rows[i].id)
  {
    var init, last := steps[..|steps| - 1], steps[|steps| - 1];
    var was, now := Run(init, entries), Run(steps, entries);
    var version := now.scopes[key].files[path];
    var id := Id(key, path, version);
    FitsAlways(init, entries);
    FitsAlways(steps, entries);
    if key in was.scopes {
      SnapshotStep(was, last, entries, key, path);
      StepKeepsRow(was, last, entries, id);
      if !Has(now.rows, id) {
        SnapshotExplained(init, entries, key, path);
        FindIn(was.rows, id);
      } else {
        FindIn(now.rows, id);
        var i :| 0 <= i < |now.rows| && now.rows[i].id == id;
      }
    }
  }

  /** The scope is not retired anywhere in `later`. */
  predicate Lives(before: seq<Step>, later: seq<Step>, entries: nat, key: nat) {
    later == [] ||
    (Lives(before, later[..|later| - 1], entries, key)
     && !Retires(Run(before + later[..|later| - 1], entries), later[|later| - 1], key))
  }

  lemma {:induction false} DeliveredStays(before: seq<Step>, later: seq<Step>, entries: nat, id: Id)
    requires Delivered(Run(before, entries).rows, id) && Lives(before, later, entries, id.key)
    ensures Delivered(Run(before + later, entries).rows, id)
  {
    if later == [] {
      assert before + later == before;
    } else {
      var init, last := later[..|later| - 1], later[|later| - 1];
      DeliveredStays(before, init, entries, id);
      assert (before + later)[..|before + later| - 1] == before + init;
      FitsAlways(before + init, entries);
      StepKeepsRow(Run(before + init, entries), last, entries, id);
    }
  }

  /** Until its scope is retired, an event that was delivered is not queued again, whatever happens to the file. */
  lemma DeliveredNotQueuedAgain(before: seq<Step>, later: seq<Step>, step: Step, entries: nat, id: Id)
    requires Delivered(Run(before, entries).rows, id) && Lives(before, later, entries, id.key)
    ensures id !in Queued(Run(before + later, entries), step, entries)
  {
    var store := Run(before + later, entries);
    DeliveredStays(before, later, entries, id);
    FitsAlways(before + later, entries);
    if step.Snapshot? && Commit(store, entries, step.rule, step.root, step.scan, step.weather).Committed? {
      CommitEvents(store, entries, step.rule, step.root, step.scan, step.weather, id);
    }
  }

  // ----- When a step is taken, exactly

  /** The bounds on what is pending, at most 1,000 and the entries, and on the history, four times the entries in 32 to
      10,000. */
  lemma LimitsAre(entries: nat)
    ensures PendingLimit(entries) <= 1_000 && PendingLimit(entries) <= entries
    ensures PendingLimit(entries) in {1_000, entries}
    ensures 32 <= HistoryLimit(entries) <= 10_000
    ensures HistoryLimit(entries) < 10_000 && HistoryLimit(entries) > 32 ==> HistoryLimit(entries) == 4 * entries
    ensures 4 * entries <= HistoryLimit(entries) || HistoryLimit(entries) == 10_000
    ensures HistoryLimit(entries) <= 4 * entries || HistoryLimit(entries) == 32
  {
  }

  /** Filing fails exactly if the events that have no row yet do not fit. */
  lemma {:induction false} FileAllFits(rows: seq<Row>, ids: seq<Id>, limit: nat)
    requires Unique(rows) && NoRepeat(ids)
    ensures FileAll(rows, ids, limit).Filed? <==> Fresh(rows, ids) == 0 || |rows| + Fresh(rows, ids) <= limit
    ensures var filed := FileAll(rows, ids, limit); filed.Filed? ==> |filed.rows| == |rows| + Fresh(rows, ids)
  {
    if ids != [] {
      var init, last := ids[..|ids| - 1], ids[|ids| - 1];
      FileAllFits(rows, init, limit);
      if FileAll(rows, init, limit).Filed? {
        FileAllExact(rows, init, limit, last);
        assert ids == init + [last] && last !in init;
      }
    }
  }

  ghost predicate SameScope(store: Store, rule: Rule) {
    rule.key in store.scopes ==> store.scopes[rule.key].digest == rule.digest
  }

  ghost predicate SameRoot(store: Store, rule: Rule, root: nat) {
    rule.key in store.scopes ==> store.scopes[rule.key].root == root
  }

  /** The scan is one that the tables could take at all. */
  ghost predicate Readable(scan: Scan, weather: Weather) {
    && |scan.files| <= 2_000 && weather.matched
    && forall i, j :: 0 <= i < j < |scan.files| ==> scan.files[i].path != scan.files[j].path
  }

  /** There is room for the scope, its files and its new events. */
  ghost predicate Fitting(store: Store, entries: nat, rule: Rule, scan: Scan, weather: Weather) {
    var added := Fresh(store.rows, Announced(store, rule.key, scan));
    && (rule.key !in store.scopes ==> |store.scopes| < 32)
    && |NextFiles(store, rule.key, scan)| <= 2_000 && weather.fits
    && Pending(store.rows) + added <= PendingLimit(entries)
    && |store.rows| + added <= HistoryLimit(entries)
  }

  /**
   * When a scan is committed, and otherwise why not: the first reason in this order. A first scan must be whole; later
   * ones are for the same folder, under the same rule.
   */
  lemma CommitWhen(store: Store, entries: nat, rule: Rule, root: nat, scan: Scan, weather: Weather)
    requires Fits(store, entries)
    ensures var reply := Commit(store, entries, rule, root, scan, weather);
            var filed := FileAll(store.rows, Announced(store, rule.key, scan), HistoryLimit(entries));
            if !Readable(scan, weather) then reply == Refused(InputInvalid)
            else if !weather.live then reply == Refused(AdmissionExpired)
            else if !SameScope(store, rule) then reply == Refused(ScopeMismatch)
            else if !SameRoot(store, rule, root) then reply == Refused(RootChanged)
            else if rule.key !in store.scopes && !(scan.complete && !scan.truncated)
            then reply == Refused(BaselineIncomplete)
            else if !Fitting(store, entries, rule, scan, weather) then reply == Refused(CapacityReached)
            else
              && reply.Committed? && filed.Filed?
              && reply.store.scopes == store.scopes[rule.key := Scope(rule.digest, root,
                                                                      NextFiles(store, rule.key, scan))]
              && reply.store.rows == filed.rows && reply.queued == filed.queued
  {
    if Readable(scan, weather) {
      ChangesExact(rule.key, Known(store, rule.key), scan.files);
      FileAllFits(store.rows, Announced(store, rule.key, scan), HistoryLimit(entries));
    }
  }

  /** A path is forgotten exactly for a rule that matches it and for the folder and rule of the scope. */
  lemma ForgetExactly(store: Store, entries: nat, rule: Rule, root: nat, path: Path, weather: Weather)
    ensures var post := After(store, Forget(rule, root, path, weather), entries);
            if weather.matched && rule.key in store.scopes && SameScope(store, rule) && SameRoot(store, rule, root)
            then
              && post.rows == store.rows && post.scopes.Keys == store.scopes.Keys
              && (forall key <- store.scopes :: key != rule.key ==> post.scopes[key] == store.scopes[key])
              && post.scopes[rule.key] == Scope(rule.digest, root, store.scopes[rule.key].files - {path})
            else post == store
  {
  }

  /** An event is marked delivered exactly by an acknowledgement for its own rule; no other row and no scope changes. */
  lemma AcknowledgeExactly(store: Store, entries: nat, rule: Rule, id: Id, k: Id)
    ensures var post := After(store, Acknowledge(rule, id), entries);
            && post.scopes == store.scopes && |post.rows| == |store.rows|
            && Find(post.rows, k) ==
               if k == id && Has(store.rows, k) && SameScope(store, rule) && id.key == rule.key
               then Some(Row(k, true)) else Find(store.rows, k)
  {
    MarkFinds(store.rows, id, k);
    MarkKeeps(store.rows, id);
    FindIn(store.rows, k);
  }

  /** A scope goes with all its rows, and nothing else does, exactly if none of its events is left to deliver. */
  lemma RetireExactly(store: Store, entries: nat, rule: Rule, id: Id)
    requires Fits(store, entries)
    ensures var post := After(store, Retire(rule), entries);
            if SameScope(store, rule) && forall k :: Has(store.rows, k) && k.key == rule.key ==>
              Delivered(store.rows, k)
            then
              && post.scopes == store.scopes - {rule.key}
              && Find(post.rows, id) == if id.key == rule.key then None else Find(store.rows, id)
            else post == store
  {
    WithoutFinds(store.rows, rule.key, id);
    if exists row <- store.rows :: row.id.key == rule.key && !row.delivered {
      var row :| row in store.rows && row.id.key == rule.key && !row.delivered;
      FindIn(store.rows, row.id);
      var i :| 0 <= i < |store.rows| && store.rows[i] == row;
      assert !Delivered(store.rows, row.id);
    } else {
      forall k | Has(store.rows, k) && k.key == rule.key
        ensures Delivered(store.rows, k)
      {
        FindIn(store.rows, k);
      }
    }
  }

  // ----- The tables as an object

  class Tables {
    const entries: nat
    var store: Store

    constructor (entries: nat)
      ensures this.entries == entries && store == EMPTY && Fits(store, entries)
    {
      this.entries, store := entries, EMPTY;
    }

    /** Commits a scan in one transaction; a refused scan leaves the tables as they were. */
    method CommitSnapshot(rule: Rule, root: nat, scan: Scan, weather: Weather) returns (reply: Reply)
      modifies this`store
      ensures reply == Commit(old(store), entries, rule, root, scan, weather)
      ensures store == After(old(store), Snapshot(rule, root, scan, weather), entries)
    {
      if |scan.files| > MAX_FILES || !Distinct(scan.files) || !weather.matched {
        return Refused(InputInvalid);
      }
      if !weather.live {
        return Refused(AdmissionExpired);
      }
      var wrong, stored := CheckScope(store, rule, Some(root)), rule.key in store.scopes;
      if wrong.Some? {
        return Refused(wrong.value);
      }
      if !stored && !Whole(scan) {
        return Refused(BaselineIncomplete);
      }
      if !stored && |store.scopes| >= MAX_SCOPES {
        return Refused(CapacityReached);
      }
      var files, ids := NextFiles(store, rule.key, scan), Announced(store, rule.key, scan);
      if |files| > MAX_FILES || !weather.fits || Pending(store.rows) + Fresh(store.rows, ids) > PendingLimit(entries) {
        return Refused(CapacityReached);
      }
      var rows, queued := store.rows, [];
      for i := 0 to |ids|
        invariant FileAll(store.rows, ids[..i], HistoryLimit(entries)) == Filed(rows, queued)
      {
        assert ids[..i + 1][..i] == ids[..i];
        var found := Find(rows, ids[i]);
        if found.Some? {
          if !found.value.delivered {
            queued := queued + [ids[i]];
          }
        } else if |rows| >= HistoryLimit(entries) {
          FullStays(store.rows, ids, i + 1, HistoryLimit(entries));
          return Refused(CapacityReached);
        } else {
          rows, queued := rows + [Row(ids[i], false)], queued + [ids[i]];
        }
      }
      assert ids[..|ids|] == ids;
      store := Store(store.scopes[rule.key := Scope(rule.digest, root, files)], rows);
      reply := Committed(store, queued);
    }
  }

  lemma {:induction false} FullStays(rows: seq<Row>, ids: seq<Id>, n: nat, limit: nat)
    requires n <= |ids| && FileAll(rows, ids[..n], limit).Full?
    ensures FileAll(rows, ids, limit).Full?
    decreases |ids|
  {
    if n < |ids| {
      assert ids[..|ids| - 1][..n] == ids[..n];
      FullStays(rows, ids[..|ids| - 1], n, limit);
    } else {
      assert ids[..n] == ids;
    }
  }
}
