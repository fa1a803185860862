/** The row-lock audit of a route: every lock a run can take is reported. */
module RowLockRoutes {
  import opened Options
  import opened RowLockLanguage
  import opened RowLockAudit
  import opened RowLockFacts
  import opened RowLockHeap
  import opened RowLockLocals
  import opened RowLockSound
  import opened RowLockRuns
  import opened RowLockReach

  // ----- Every callee a summary names pins parameters only

  ghost predicate Proper(p: Program, sum: Summary) {
    forall t <- sum.callees :: t.fn < |p| && Pinnable(p[t.fn].params, t.env)
  }

  lemma {:induction false} VisitProper(p: Program, e: Expr, env: Env)
    requires WfExpr(e)
    ensures Proper(p, Visit(p, e, env))
    decreases e
  {
    match e
    case Not(e1) => VisitProper(p, e1, env);
    case And(l, r) => VisitProper(p, l, env); VisitProper(p, r, env);
    case Or(l, r) => VisitProper(p, l, env); VisitProper(p, r, env);
    case Nullish(l, r) => VisitProper(p, l, env); VisitProper(p, r, env);
    case Equal(l, r, _) => VisitProper(p, l, env); VisitProper(p, r, env);
    case Cond(c, t, f) => VisitProper(p, c, env); VisitProper(p, t, env); VisitProper(p, f, env);
    case Record(fields) => FieldsProper(p, fields, env);
    case Call(fn, args) =>
      AllProper(p, args, env);
      if fn < |p| {
        CalleePinNames(p[fn].params, args, env);
      }
    case Assign(_, e1) => VisitProper(p, e1, env);
    case AssignProp(_, _, e1) => VisitProper(p, e1, env);
    case Lock(_, spans) => AllProper(p, spans, env);
    case Opaque(parts) => AllProper(p, parts, env);
    case _ =>
  }

  lemma {:induction false} AllProper(p: Program, es: List<Expr>, env: Env)
    requires WfExprs(es)
    ensures Proper(p, VisitAll(p, es, env))
    decreases es
  {
    if es.Cons? {
      VisitProper(p, es.head, env);
      AllProper(p, es.tail, env);
    }
  }

  lemma {:induction false} FieldsProper(p: Program, fs: List<Field>, env: Env)
    requires WfFields(fs)
    ensures Proper(p, VisitFields(p, fs, env))
    decreases fs
  {
    if fs.Cons? {
      VisitProper(p, fs.head.value, env);
      FieldsProper(p, fs.tail, env);
    }
  }

  lemma {:induction false} StmtProper(p: Program, s: Stmt, env: Env)
    requires WfStmt(s)
    ensures Proper(p, VisitStmt(p, s, env))
    decreases s
  {
    match s
    case ExprStmt(e) => VisitProper(p, e, env);
    case Declare(_, _, init) => VisitProper(p, init, env);
    case Unpack(_, _, _) =>
    case Block(body) => StatementsProper(p, body, env);
    case If(c, t, f) => VisitProper(p, c, env); StmtProper(p, t, env); StmtProper(p, f, env);
    case Return(e) => VisitProper(p, e, env);
    case Throw(e) => VisitProper(p, e, env);
    case Break =>
    case Continue =>
    case Switch(d, clauses) => VisitProper(p, d, env); ClausesProper(p, clauses, env);
    case While(c, loop) => VisitProper(p, c, env); StmtProper(p, loop, env);
    case Try(body, handler, finalizer) =>
      StatementsProper(p, body, env); StatementsProper(p, handler, env); StatementsProper(p, finalizer, env);
  }

  lemma {:induction false} StatementsProper(p: Program, ss: List<Stmt>, env: Env)
    requires WfStmts(ss)
    ensures Proper(p, Statements(p, ss, env).sum) && Proper(p, VisitStmts(p, ss, env))
    decreases ss
  {
    if ss.Cons? {
      StmtProper(p, ss.head, env);
      StatementsProper(p, ss.tail, env);
    }
    StmtsCovered(p, ss, env);
  }

  lemma {:induction false} ClausesProper(p: Program, clauses: List<Clause>, env: Env)
    requires WfClauses(clauses)
    ensures Proper(p, VisitClauses(p, clauses, env))
    decreases clauses
  {
    if clauses.Cons? {
      StatementsProper(p, clauses.head.body, env);
      ClausesProper(p, clauses.tail, env);
      if clauses.head.test.Some? {
        VisitProper(p, clauses.head.test.value, env);
      }
    }
  }

  lemma {:induction false} ElemsProper(p: Program, elems: List<Elem>, env: Env)
    requires WfElems(elems)
    ensures Proper(p, VisitElems(p, elems, env))
    decreases elems
  {
    if elems.Cons? {
      ElemsProper(p, elems.tail, env);
      if elems.head.init.Some? {
        VisitProper(p, elems.head.init.value, env);
      }
    }
  }

  lemma {:induction false} ParamsProper(p: Program, params: List<Param>, env: Env)
    requires WfParams(params)
    ensures Proper(p, VisitParams(p, params, env))
    decreases params
  {
    if params.Cons? {
      ParamsProper(p, params.tail, env);
      match params.head
      case Plain(_, init) =>
        if init.Some? {
          VisitProper(p, init.value, env);
        }
      case Pattern(elems, _) => ElemsProper(p, elems, env);
    }
  }

  lemma SummaryProper(p: Program, t: Target)
    requires Auditable(p) && t.fn < |p|
    ensures Proper(p, Summarize(p, t))
  {
    var f := p[t.fn];
    assert f in p;
    ParamsProper(p, f.params, WithLocals(f, t.env));
    StatementsProper(p, f.body, WithLocals(f, t.env));
  }

  // ----- What the report of one route accounts for

  /** The walk that the search follows is the audit's own. */
  ghost predicate Walks(p: Program, walk: Walk) {
    forall t: Target :: t.fn < |p| ==> walk(t) == Summarize(p, t)
  }

  /** The properties whose values the walk of these states relies on. */
  function ReliedOn(p: Program, states: seq<Target>): set<string>
    requires forall t <- states :: t.fn < |p|
  {
    set t, q | t in states && q in Relied(p[t.fn], t.env) :: q
  }

  /** Each switch walked on a known value had known labels, and the program assigns no property relied on. */
  predicate Settled(p: Program, states: seq<Target>)
    requires forall t <- states :: t.fn < |p|
  {
    (forall t <- states :: DecidedIn(p, t)) && ProgramSets(p) !! ReliedOn(p, states)
  }

  /** Everything one search established. */
  ghost predicate Searched(p: Program, walk: Walk, table: Table, summaries: Summaries, barriers: set<nat>,
                           start: Target, done: seq<Target>, parents: map<Target, Target>) {
    && Auditable(p) && Walks(p, walk) && Faithful(walk, |p|, summaries, table)
    && Report(done, start, summaries, barriers)
    && Earlier(done, start, parents) && (forall t <- parents :: Step(summaries, barriers, parents[t], t))
    && (forall t <- done :: t.fn < |p|) && Settled(p, done)
    && Pinnable(p[start.fn].params, start.env)
  }

  lemma CalleePinned(p: Program, walk: Walk, table: Table, summaries: Summaries, caller: Target, t: Target)
    requires Auditable(p) && Walks(p, walk) && Faithful(walk, |p|, summaries, table)
    requires caller in summaries && t in summaries[caller].callees
    ensures t.fn < |p| && Pinnable(p[t.fn].params, t.env)
  {
    SummaryProper(p, caller);
    var raw := Summarize(p, caller).callees;
    assert walk(caller) == Summarize(p, caller);
    var i :| 0 <= i < |summaries[caller].callees| && summaries[caller].callees[i] == t;
    assert raw[i] in raw;
  }

  lemma CalleesFollowed(p: Program, walk: Walk, table: Table, summaries: Summaries, barriers: set<nat>, start: Target,
                        done: seq<Target>, parents: map<Target, Target>, t: Target, c: Cover)
    requires Searched(p, walk, table, summaries, barriers, start, done, parents) && t in done
    requires c.targets == set u | u in done
    ensures forall raw <- Summarize(p, t).callees :: Followed(raw, c, barriers)
  {
    var raws, states := Summarize(p, t).callees, summaries[t].callees;
    assert walk(t) == Summarize(p, t);
    forall raw | raw in raws
      ensures Followed(raw, c, barriers)
    {
      var i :| 0 <= i < |raws| && raws[i] == raw;
      assert states[i] in states;
    }
  }

  /** Code out of sight writes none of these properties. */
  ghost predicate Spares(oracle: nat -> Choice, props: set<string>) {
    forall i, j :: 0 <= j < |oracle(i).pokes| ==> oracle(i).pokes[j].p !in props
  }

  lemma StatePinned(p: Program, walk: Walk, table: Table, summaries: Summaries, barriers: set<nat>, start: Target,
                    done: seq<Target>, parents: map<Target, Target>, t: Target)
    requires Searched(p, walk, table, summaries, barriers, start, done, parents) && t in done
    ensures Pinnable(p[t.fn].params, t.env)
  {
    if t != start {
      var j :| 0 <= j < |done| && done[j] == t;
      CalleePinned(p, walk, table, summaries, parents[t], t);
    }
  }

  ghost function CoverOf(p: Program, done: seq<Target>, summaries: Summaries): Cover
    requires forall t <- done :: t in summaries && t.fn < |p|
  {
    Cover(LocksOf(done, summaries), (set u | u in done), ReliedOn(p, done))
  }

  lemma StateCovered(p: Program, walk: Walk, table: Table, summaries: Summaries, barriers: set<nat>, start: Target,
                     done: seq<Target>, parents: map<Target, Target>, t: Target, w: World)
    requires Searched(p, walk, table, summaries, barriers, start, done, parents) && t in done
    requires w.program == p && w.barriers == barriers
    ensures CoversState(w, CoverOf(p, done, summaries), t)
  {
    StatePinned(p, walk, table, summaries, barriers, start, done, parents, t);
    assert walk(t) == Summarize(p, t);
    CalleesFollowed(p, walk, table, summaries, barriers, start, done, parents, t, CoverOf(p, done, summaries));
  }

  lemma SearchCovers(p: Program, walk: Walk, table: Table, summaries: Summaries, barriers: set<nat>, start: Target,
                     done: seq<Target>, parents: map<Target, Target>, oracle: nat -> Choice)
    requires Searched(p, walk, table, summaries, barriers, start, done, parents) && Spares(oracle, ReliedOn(p, done))
    ensures Covers(World(p, barriers, oracle), CoverOf(p, done, summaries))
  {
    var w, c := World(p, barriers, oracle), CoverOf(p, done, summaries);
    forall t | t in c.targets
      ensures CoversState(w, c, t)
    {
      StateCovered(p, walk, table, summaries, barriers, start, done, parents, t, w);
    }
  }

  /** A run of the handler from any heap, with no lock held. */
  ghost function LocksTaken(p: Program, fn: nat, barriers: set<nat>, oracle: nat -> Choice, fuel: nat, ds: List<Data>,
                            heap: Heap, tick: nat): set<nat>
    requires fn < |p|
  {
    RunBody(fuel, World(p, barriers, oracle), p[fn], ds, State(map[], heap, tick, {})).st.locks
  }

  lemma SearchSound(p: Program, walk: Walk, table: Table, summaries: Summaries, barriers: set<nat>, start: Target,
                    done: seq<Target>, parents: map<Target, Target>,
                    oracle: nat -> Choice, fuel: nat, ds: List<Data>, heap: Heap, tick: nat)
    requires Searched(p, walk, table, summaries, barriers, start, done, parents) && Spares(oracle, ReliedOn(p, done))
    requires ParamsOk(p[start.fn].params, ds, WithLocals(p[start.fn], start.env), heap)
    ensures LocksTaken(p, start.fn, barriers, oracle, fuel, ds, heap, tick) <= LocksOf(done, summaries)
  {
    var w := World(p, barriers, oracle);
    var c := CoverOf(p, done, summaries);
    SearchCovers(p, walk, table, summaries, barriers, start, done, parents, oracle);
    BodySound(fuel, w, c, start, ds, State(map[], heap, tick, {}));
  }

  /**
   * Every lock clause acquired in any run of the handler, outside calls to a barrier, is in the summary of a
   * state the search reported: pruning, early exits, switches and the cap on specializations lose none, and
   * neither do objects that several names share.
   */
  lemma EveryLockReported(p: Program, walk: Walk, table: Table, summaries: Summaries, barriers: set<nat>, start: Target,
                          done: seq<Target>, parents: map<Target, Target>,
                          oracle: nat -> Choice, fuel: nat, ds: List<Data>, heap: Heap, tick: nat)
    requires Searched(p, walk, table, summaries, barriers, start, done, parents) && Spares(oracle, ReliedOn(p, done))
    requires ParamsOk(p[start.fn].params, ds, WithLocals(p[start.fn], start.env), heap)
    ensures forall k <- LocksTaken(p, start.fn, barriers, oracle, fuel, ds, heap, tick) ::
              exists t :: t in done && k in Summarize(p, t).locks
  {
    SearchSound(p, walk, table, summaries, barriers, start, done, parents, oracle, fuel, ds, heap, tick);
    LocksFound(p, walk, table, summaries, done);
  }

  /** A route pins its request's method, and a request with that method fits. */
  lemma RouteFits(f: Function, x: string, verb: string, request: Data, rest: List<Data>, heap: Heap)
    requires Tidy(f) && f.params.Cons? && f.params.head == Plain(x, None)
    requires IsObject(request, heap) && Get(request, "method", heap) == Prim(Str(verb))
    ensures var pins := map[Member(x, "method") := Str(verb)];
            Pinnable(f.params, pins) && ParamsOk(f.params, Cons(request, rest), WithLocals(f, pins), heap)
  {
    var pins: Env := map[Member(x, "method") := Str(verb)];
    var names, env := ParamNames(f.params), WithLocals(f, pins);
    assert names[0] == x && names[1..] == ParamNames(f.params.tail);
    forall k | k in env && k.x in names
      ensures k == Member(x, "method") && env[k] == Str(verb)
    {
      PinsFromCall(f, pins, k);
    }
    forall k | k in env
      ensures k.x !in ParamNames(f.params.tail)
    {
      assert k.x in names[1..] ==> k.x in names;
    }
    NothingPinned(f.params.tail, rest, env, heap);
  }

  // ----- The audit as it is used

  /**
   * No run of the handler on fitting values takes a lock outside `locks`, whatever its objects and runtime data,
   * as long as code out of sight writes none of `props`.
   */
  ghost predicate Accounts(p: Program, entry: Target, barriers: set<nat>, locks: set<nat>, props: set<string>)
    requires entry.fn < |p|
  {
    forall oracle: nat -> Choice, fuel: nat, ds: List<Data>, heap: Heap, tick: nat ::
      Spares(oracle, props) && ParamsOk(p[entry.fn].params, ds, WithLocals(p[entry.fn], entry.env), heap) ==>
        LocksTaken(p, entry.fn, barriers, oracle, fuel, ds, heap, tick) <= locks
  }

  /** The state a route starts from is fit for whatever fits its entry. */
  lemma StartFits(f: Function, entry: Env, start: Env, ds: List<Data>, heap: Heap)
    requires Tidy(f) && (start == entry || start == EMPTY) && ParamsOk(f.params, ds, WithLocals(f, entry), heap)
    ensures ParamsOk(f.params, ds, WithLocals(f, start), heap)
  {
    if start != entry {
      EmptyArgs(f, ds, heap);
    }
  }

  lemma RunAccounted(p: Program, walk: Walk, table: Table, summaries: Summaries, barriers: set<nat>, entry: Target,
                     start: Target, done: seq<Target>, parents: map<Target, Target>,
                     oracle: nat -> Choice, fuel: nat, ds: List<Data>, heap: Heap, tick: nat)
    requires Searched(p, walk, table, summaries, barriers, start, done, parents) && Spares(oracle, ReliedOn(p, done))
    requires start == entry || start == Target(entry.fn, EMPTY)
    requires ParamsOk(p[entry.fn].params, ds, WithLocals(p[entry.fn], entry.env), heap)
    ensures LocksTaken(p, entry.fn, barriers, oracle, fuel, ds, heap, tick) <= LocksOf(done, summaries)
  {
    assert p[entry.fn] in p;
    StartFits(p[entry.fn], entry.env, start.env, ds, heap);
    SearchSound(p, walk, table, summaries, barriers, start, done, parents, oracle, fuel, ds, heap, tick);
  }

  lemma RouteAccounted(p: Program, walk: Walk, table: Table, summaries: Summaries, barriers: set<nat>, entry: Target,
                       start: Target, done: seq<Target>, parents: map<Target, Target>)
    requires Searched(p, walk, table, summaries, barriers, start, done, parents)
    requires start == entry || start == Target(entry.fn, EMPTY)
    ensures Accounts(p, entry, barriers, LocksOf(done, summaries), ReliedOn(p, done))
  {
    var f, locks, props := p[entry.fn], LocksOf(done, summaries), ReliedOn(p, done);
    forall oracle: nat -> Choice, fuel: nat, ds: List<Data>, heap: Heap, tick: nat |
      Spares(oracle, props) && ParamsOk(f.params, ds, WithLocals(f, entry.env), heap)
      ensures LocksTaken(p, entry.fn, barriers, oracle, fuel, ds, heap, tick) <= locks
    {
      RunAccounted(p, walk, table, summaries, barriers, entry, start, done, parents, oracle, fuel, ds, heap, tick);
    }
  }

  /** The locks are exactly those the walk found in these states. */
  ghost predicate FoundIn(p: Program, states: seq<Target>, locks: set<nat>)
    requires forall t <- states :: t.fn < |p|
  {
    forall k :: k in locks <==> exists t :: t in states && k in Summarize(p, t).locks
  }

  lemma LocksFound(p: Program, walk: Walk, table: Table, summaries: Summaries, done: seq<Target>)
    requires Walks(p, walk) && Faithful(walk, |p|, summaries, table)
    requires forall t <- done :: t in summaries && t.fn < |p|
    ensures FoundIn(p, done, LocksOf(done, summaries))
  {
    forall t | t in done
      ensures summaries[t].locks == Summarize(p, t).locks
    {
      assert walk(t) == Summarize(p, t);
    }
  }

  // ----- While no function is full, the search follows the walk's own callees

  ghost predicate NoneFull(table: Table) {
    forall fn: nat :: |Pinnings(table, fn)| < MAX_SPECIALIZATIONS
  }

  /** One state calls the other, which is no barrier, by the walk itself. */
  ghost predicate Leads(p: Program, barriers: set<nat>, caller: Target, t: Target) {
    caller.fn < |p| && t in Summarize(p, caller).callees && t.fn !in barriers
  }

  /** Exactly the specializations that the entry leads to, each once and after a caller of it. */
  ghost predicate Follows(p: Program, entry: Target, barriers: set<nat>, states: seq<Target>) {
    && Once(states) && entry in states && (forall t <- states :: t.fn < |p|)
    && (forall t, c :: t in states && Leads(p, barriers, t, c) ==> c in states)
    && (forall j: nat {:trigger HasCaller(p, barriers, states, j)} ::
          j < |states| && states[j] != entry ==> HasCaller(p, barriers, states, j))
  }

  ghost predicate HasCaller(p: Program, barriers: set<nat>, states: seq<Target>, j: nat)
    requires j < |states|
  {
    exists i :: 0 <= i < j && Leads(p, barriers, states[i], states[j])
  }

  lemma StandsExactly(state: Target, t: Target, table: Table)
    requires StandsFor(state, t, table) && NoneFull(table)
    ensures state == t
  {
    SubsetSize(Pinnings(table, t.fn) - {t.env}, Pinnings(table, t.fn));
  }

  lemma CalleesExact(p: Program, walk: Walk, table: Table, summaries: Summaries, t: Target)
    requires Walks(p, walk) && Faithful(walk, |p|, summaries, table) && NoneFull(table) && t in summaries
    ensures t.fn < |p| && summaries[t].callees == Summarize(p, t).callees
  {
    assert walk(t) == Summarize(p, t);
    var raw, states := Summarize(p, t).callees, summaries[t].callees;
    forall i | 0 <= i < |raw|
      ensures states[i] == raw[i]
    {
      StandsExactly(states[i], raw[i], table);
    }
  }

  lemma CallersExact(p: Program, walk: Walk, table: Table, summaries: Summaries, barriers: set<nat>, start: Target,
                     done: seq<Target>, parents: map<Target, Target>, j: nat) returns (i: nat)
    requires Walks(p, walk) && Faithful(walk, |p|, summaries, table) && NoneFull(table)
    requires Earlier(done, start, parents) && forall t <- parents :: Step(summaries, barriers, parents[t], t)
    requires j < |done| && done[j] != start
    ensures i < j && Leads(p, barriers, done[i], done[j])
  {
    var caller := parents[done[j]];
    i :| 0 <= i < |done[..j]| && done[..j][i] == caller;
    CalleesExact(p, walk, table, summaries, caller);
  }

  lemma RouteFollows(p: Program, walk: Walk, table: Table, summaries: Summaries, barriers: set<nat>, entry: Target,
                     start: Target, done: seq<Target>, parents: map<Target, Target>)
    requires Walks(p, walk) && Faithful(walk, |p|, summaries, table) && NoneFull(table)
    requires Report(done, start, summaries, barriers) && Earlier(done, start, parents)
    requires forall t <- parents :: Step(summaries, barriers, parents[t], t)
    requires StandsFor(start, entry, table) && forall t <- done :: t.fn < |p|
    ensures Follows(p, entry, barriers, done)
  {
    StandsExactly(start, entry, table);
    forall t, c | t in done && Leads(p, barriers, t, c)
      ensures c in done
    {
      CalleesExact(p, walk, table, summaries, t);
    }
    forall j: nat | j < |done| && done[j] != entry
      ensures HasCaller(p, barriers, done, j)
    {
      var i := CallersExact(p, walk, table, summaries, barriers, start, done, parents, j);
    }
  }

  lemma FollowsEarlier(was: Table, table: Table)
    requires Grown(was, table) && NoneFull(table)
    ensures NoneFull(was)
  {
    forall fn: nat
      ensures |Pinnings(was, fn)| < MAX_SPECIALIZATIONS
    {
      SubsetSize(Pinnings(was, fn), Pinnings(table, fn));
    }
  }

  /** The states of a route and their locks, and whether everything they rely on is known to last. */
  datatype RouteReport = RouteReport(states: seq<Target>, locks: set<nat>, settled: bool)

  ghost predicate Right(p: Program, entry: Target, barriers: set<nat>, report: RouteReport)
    requires entry.fn < |p|
  {
    && (forall t <- report.states :: t.fn < |p|)
    && FoundIn(p, report.states, report.locks)
    && (report.settled <==> Settled(p, report.states))
    && (report.settled ==> Accounts(p, entry, barriers, report.locks, ReliedOn(p, report.states)))
  }

  lemma ReportRight(p: Program, walk: Walk, table: Table, summaries: Summaries, barriers: set<nat>, entry: Target,
                    start: Target, done: seq<Target>, parents: map<Target, Target>, report: RouteReport)
    requires Auditable(p) && Walks(p, walk) && Faithful(walk, |p|, summaries, table)
    requires Report(done, start, summaries, barriers) && Earlier(done, start, parents)
    requires forall t <- parents :: Step(summaries, barriers, parents[t], t)
    requires forall t <- done :: t.fn < |p|
    requires start == entry || start == Target(entry.fn, EMPTY)
    requires entry.fn < |p| && Pinnable(p[entry.fn].params, entry.env)
    requires report == RouteReport(done, LocksOf(done, summaries), Settled(p, done))
    ensures Right(p, entry, barriers, report)
  {
    if report.settled {
      assert start.env == entry.env || start.env == EMPTY;
      assert Pinnable(p[start.fn].params, start.env);
      RouteAccounted(p, walk, table, summaries, barriers, entry, start, done, parents);
    }
    LocksFound(p, walk, table, summaries, done);
  }

  /** One route of an audit that may have been used before. */
  method AuditRoute(p: Program, audit: Audit, entry: Target, barriers: set<nat>) returns (report: RouteReport)
    requires Auditable(p) && audit.Valid() && audit.functions == |p| && Walks(p, audit.walk)
    requires entry.fn < |p| && Pinnable(p[entry.fn].params, entry.env)
    modifies audit
    ensures audit.Valid() && Right(p, entry, barriers, report)
    ensures Grown(old(audit.specializations), audit.specializations)
    ensures NoneFull(audit.specializations) ==> Follows(p, entry, barriers, report.states)
  {
    var locks, start, done, parents := audit.RouteLocks(entry, barriers);
    report := RouteReport(done, locks, Settled(p, done));
    if NoneFull(audit.specializations) {
      RouteFollows(p, audit.walk, audit.specializations, audit.summaries, barriers, entry, start, done, parents);
    }
    ReportRight(p, audit.walk, audit.specializations, audit.summaries, barriers, entry, start, done, parents, report);
  }

  method NewAudit(p: Program) returns (audit: Audit)
    requires Auditable(p)
    ensures fresh(audit) && audit.Valid() && audit.functions == |p| && Walks(p, audit.walk)
  {
    forall t: Target | t.fn < |p|
      ensures Proper(p, Summarize(p, t))
    {
      SummaryProper(p, t);
    }
    audit := new Audit((t: Target) => if t.fn < |p| then Summarize(p, t) else NOTHING, |p|);
  }

  /**
   * The audit of a whole program, route after route over shared caches: the locks reported for a settled route hold
   * every lock that any run of its handler takes, and unless some function was full in the end, the states of every
   * route are exactly the specializations its entry leads to.
   */
  method AuditRoutes(p: Program, entries: seq<Target>, barriers: set<nat>)
    returns (reports: seq<RouteReport>, ghost table: Table)
    requires Auditable(p) && forall entry <- entries :: Enterable(p, entry)
    ensures |reports| == |entries| && RightSoFar(p, entries, barriers, reports)
    ensures NoneFull(table) ==> FollowSoFar(p, entries, barriers, reports)
  {
    var audit := NewAudit(p);
    reports := [];
    for i := 0 to |entries|
      invariant audit.Valid() && fresh(audit) && audit.functions == |p| && Walks(p, audit.walk)
      invariant |reports| == i && RightSoFar(p, entries, barriers, reports)
      invariant NoneFull(audit.specializations) ==> FollowSoFar(p, entries, barriers, reports)
    {
      assert Enterable(p, entries[i]);
      ghost var was := audit.specializations;
      var report := AuditRoute(p, audit, entries[i], barriers);
      if NoneFull(audit.specializations) {
        FollowsEarlier(was, audit.specializations);
      }
      OneMoreRight(p, entries, barriers, reports, report);
      reports := reports + [report];
    }
    table := audit.specializations;
  }

  ghost predicate Enterable(p: Program, entry: Target) {
    entry.fn < |p| && Pinnable(p[entry.fn].params, entry.env)
  }

  ghost predicate RightSoFar(p: Program, entries: seq<Target>, barriers: set<nat>, reports: seq<RouteReport>) {
    && |reports| <= |entries|
    && forall i :: 0 <= i < |reports| ==> entries[i].fn < |p| && Right(p, entries[i], barriers, reports[i])
  }

  ghost predicate FollowSoFar(p: Program, entries: seq<Target>, barriers: set<nat>, reports: seq<RouteReport>) {
    && |reports| <= |entries|
    && forall i :: 0 <= i < |reports| ==> Follows(p, entries[i], barriers, reports[i].states)
  }

  lemma OneMoreRight(p: Program, entries: seq<Target>, barriers: set<nat>, reports: seq<RouteReport>,
                     report: RouteReport)
    requires RightSoFar(p, entries, barriers, reports) && |reports| < |entries|
    requires entries[|reports|].fn < |p| && Right(p, entries[|reports|], barriers, report)
    ensures RightSoFar(p, entries, barriers, reports + [report])
  {
  }

  // ----- Programs whose routes are all settled

  predicate FixedLabels(clauses: List<Clause>) {
    Labelled(clauses, map[])
  }

  /** Every label is a literal, or decided without any pin. */
  predicate Fixed(s: Stmt) {
    match s
    case Block(body) => FixedAll(body)
    case If(_, t, f) => Fixed(t) && Fixed(f)
    case Switch(_, clauses) => FixedLabels(clauses) && FixedClauses(clauses)
    case While(_, loop) => Fixed(loop)
    case Try(body, handler, finalizer) => FixedAll(body) && FixedAll(handler) && FixedAll(finalizer)
    case _ => true
  }

  predicate FixedAll(ss: List<Stmt>) {
    ss.Cons? ==> Fixed(ss.head) && FixedAll(ss.tail)
  }

  predicate FixedClauses(clauses: List<Clause>) {
    clauses.Cons? ==> FixedAll(clauses.head.body) && FixedClauses(clauses.tail)
  }

  lemma {:induction false} FixedLabelled(clauses: List<Clause>, env: Env)
    requires FixedLabels(clauses)
    ensures Labelled(clauses, env)
  {
    if clauses.Cons? {
      FixedLabelled(clauses.tail, env);
      if clauses.head.test.Some? {
        EvaluateMonotone(clauses.head.test.value, map[], env);
      }
    }
  }

  lemma {:induction false} FixedDecided(s: Stmt, env: Env)
    requires Fixed(s)
    ensures Decided(s, env)
    decreases s
  {
    match s
    case Block(body) => FixedAllDecided(body, env);
    case If(_, t, f) => FixedDecided(t, env); FixedDecided(f, env);
    case Switch(_, clauses) => FixedLabelled(clauses, env); FixedClausesDecided(clauses, env);
    case While(_, loop) => FixedDecided(loop, env);
    case Try(body, handler, finalizer) =>
      FixedAllDecided(body, env); FixedAllDecided(handler, env); FixedAllDecided(finalizer, env);
    case _ =>
  }

  lemma {:induction false} FixedAllDecided(ss: List<Stmt>, env: Env)
    requires FixedAll(ss)
    ensures DecidedAll(ss, env)
    decreases ss
  {
    if ss.Cons? {
      FixedDecided(ss.head, env);
      FixedAllDecided(ss.tail, env);
    }
  }

  lemma {:induction false} FixedClausesDecided(clauses: List<Clause>, env: Env)
    requires FixedClauses(clauses)
    ensures DecidedClauses(clauses, env)
    decreases clauses
  {
    if clauses.Cons? {
      FixedAllDecided(clauses.head.body, env);
      FixedClausesDecided(clauses.tail, env);
    }
  }

  /** With labels that need no pin, and no property assigned that the states rely on, every route is settled. */
  lemma FixedSettled(p: Program, states: seq<Target>)
    requires (forall t <- states :: t.fn < |p|) && forall f <- p :: FixedAll(f.body)
    ensures Settled(p, states) <==> ProgramSets(p) !! ReliedOn(p, states)
  {
    forall t | t in states
      ensures DecidedIn(p, t)
    {
      assert p[t.fn] in p;
      FixedAllDecided(p[t.fn].body, WithLocals(p[t.fn], t.env));
    }
  }
}
