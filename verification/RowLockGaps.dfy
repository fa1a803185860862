/**
 * Why the row-lock audit needs the conditions of its soundness: one small program for each of them whose summaries
 * are empty although a run that fits the pins takes a lock.
 */
module RowLockGaps {
  import opened Options
  import opened RowLockLanguage
  import opened RowLockAudit
  import opened RowLockLocals
  import opened RowLockSound
  import opened RowLockRoutes

  const TAKE: List<Stmt> := Cons(ExprStmt(Lock(0, Nil)), Nil)

  /** Code out of sight that only throws. */
  const THROWS: Choice := Choice(Raise, [], [])

  function Throws(tick: nat): Choice { THROWS }

  ghost predicate Silent(sum: Summary) {
    sum.locks == {} && sum.callees == []
  }

  /** These states, the first function's among them, call only each other and are said to take no lock. */
  ghost predicate Closed(p: Program, pins: Env, states: set<Target>) {
    && Target(0, pins) in states
    && forall t <- states ::
      && t.fn < |p| && Summarize(p, t).locks == {}
      && forall u <- Summarize(p, t).callees :: u in states
  }

  /** A run of the first function that fits the pins takes a lock that no summary has. */
  ghost predicate Missed(p: Program, pins: Env, oracle: nat -> Choice, ds: List<Data>, heap: Heap) {
    && |p| > 0 && Pinnable(p[0].params, pins) && (exists states :: Closed(p, pins, states))
    && ParamsOk(p[0].params, ds, WithLocals(p[0], pins), heap)
    && exists fuel: nat :: 0 in LocksTaken(p, 0, {}, oracle, fuel, ds, heap, 0)
  }

  /** The conditions that concern neither shared objects nor code out of sight. */
  ghost predicate Regular(p: Program) {
    Auditable(p) && forall f <- p :: FixedAll(f.body)
  }

  lemma MissedBy(p: Program, pins: Env, env: Env, oracle: nat -> Choice, ds: List<Data>, heap: Heap, fuel: nat,
                 states: set<Target>)
    requires |p| > 0 && Pinnable(p[0].params, pins) && Closed(p, pins, states)
    requires WithLocals(p[0], pins) == env && ParamsOk(p[0].params, ds, env, heap)
    requires 0 in LocksTaken(p, 0, {}, oracle, fuel, ds, heap, 0)
    ensures Missed(p, pins, oracle, ds, heap)
  {
  }

  lemma ClosedAlone(f: Function, pins: Env, env: Env)
    requires WithLocals(f, pins) == env
    requires Silent(VisitParams([f], f.params, env)) && Silent(Statements([f], f.body, env).sum)
    ensures Closed([f], pins, {Target(0, pins)})
  {
  }

  ghost function Start(heap: Heap): State {
    State(map[], heap, 0, {})
  }

  lemma TakeLocks(fuel: nat, w: World, st: State)
    requires fuel >= 4 && w.oracle(st.tick) == THROWS
    ensures var r := ExecScope(fuel, w, TAKE, st); 0 in r.st.locks && r.out.Threw?
  {
    var inside := Enter(Declared(TAKE), st);
    assert Eval(fuel - 2, w, Lock(0, Nil), inside) == Choose(w, inside.(locks := inside.locks + {0}));
    assert Exec(fuel - 1, w, TAKE.head, inside) == Run(Threw, Choose(w, inside.(locks := inside.locks + {0})).st);
    assert ExecAll(fuel, w, TAKE, inside) == Exec(fuel - 1, w, TAKE.head, inside);
  }

  /** Taking the lock is all the function's body does when it gets there. */
  lemma BodyLocks(fuel: nat, p: Program, oracle: nat -> Choice, ds: List<Data>, heap: Heap, st: State)
    requires |p| > 0 && fuel > 1
    requires Bind(fuel - 1, World(p, {}, oracle), p[0].params, ds, Start(heap)) == Run(Done(UNDEFINED), st)
    requires 0 in ExecAll(fuel - 1, World(p, {}, oracle), p[0].body, st).st.locks
    ensures 0 in LocksTaken(p, 0, {}, oracle, fuel, ds, heap, 0)
  {
    assert Start(heap).(store := map[]) == Start(heap);
  }

  lemma NoTakeBinders()
    ensures BodyBinders(TAKE) == [] && BodyWrites(TAKE, Nil) == []
  {
    assert StmtWrites(TAKE.head, Nil) == [];
  }

  lemma PlainSilent(p: Program, x: string, rest: List<Param>, env: Env)
    requires Silent(VisitParams(p, rest, env))
    ensures Silent(VisitParams(p, Cons(Plain(x, None), rest), env))
  {
    assert VisitParam(p, Plain(x, None), env) == NOTHING;
  }

  lemma SilentThen(p: Program, s: Stmt, rest: List<Stmt>, env: Env)
    requires Silent(Statement(p, s, env).sum) && !Statement(p, s, env).exits && Silent(Statements(p, rest, env).sum)
    ensures Silent(Statements(p, Cons(s, rest), env).sum)
  {
  }

  lemma ExprSilent(p: Program, e: Expr, rest: List<Stmt>, env: Env)
    requires Visit(p, e, env) == NOTHING && Silent(Statements(p, rest, env).sum)
    ensures Silent(Statements(p, Cons(ExprStmt(e), rest), env).sum)
  {
    assert Statement(p, ExprStmt(e), env) == Flow(false, NOTHING);
    SilentThen(p, ExprStmt(e), rest, env);
  }

  lemma DeclareSilent(p: Program, fixed: bool, x: string, init: Expr, rest: List<Stmt>, env: Env)
    requires Visit(p, init, env) == NOTHING && Silent(Statements(p, rest, env).sum)
    ensures Silent(Statements(p, Cons(Declare(fixed, x, init), rest), env).sum)
  {
    assert Statement(p, Declare(fixed, x, init), env) == Flow(false, NOTHING);
    SilentThen(p, Declare(fixed, x, init), rest, env);
  }

  lemma CallNoted(p: Program, fn: nat, args: List<Expr>, rest: List<Stmt>, env: Env)
    requires fn < |p| && VisitAll(p, args, env) == NOTHING && Silent(Statements(p, rest, env).sum)
    ensures Statements(p, Cons(ExprStmt(Call(fn, args)), rest), env).sum ==
            Summary({}, [Target(fn, CalleeEnv(p[fn].params, args, env))])
  {
    var sum := Summary({}, [Target(fn, CalleeEnv(p[fn].params, args, env))]);
    assert Visit(p, Call(fn, args), env) == sum.Plus(NOTHING) == sum;
    assert Statement(p, ExprStmt(Call(fn, args)), env) == Flow(false, sum);
  }

  lemma BindPlain(fuel: nat, w: World, x: string, d: Data, rest: List<Param>, ds: List<Data>, st: State)
    requires fuel > 3
    ensures Bind(fuel, w, Cons(Plain(x, None), rest), Cons(d, ds), st) ==
            Bind(fuel - 1, w, rest, ds, st.(store := st.store[x := Binding(d, false)]))
  {
    assert OrInit(fuel - 2, w, d, None, st) == Run(Done(d), st);
  }

  /** Going on to the next statement. */
  lemma StepTo(fuel: nat, w: World, s: Stmt, rest: List<Stmt>, st: State, d: Data, next: State)
    requires fuel > 0 && Exec(fuel - 1, w, s, st) == Run(Done(d), next)
    ensures ExecAll(fuel, w, Cons(s, rest), st) == ExecAll(fuel - 1, w, rest, next)
  {
  }

  lemma LocksStay(fuel: nat, w: World, s: Stmt, st: State)
    requires fuel > 1 && 0 in Exec(fuel - 1, w, s, st).st.locks
    ensures 0 in ExecAll(fuel, w, Cons(s, Nil), st).st.locks
  {
  }

  /** A branch that is taken, whatever the walk thought. */
  lemma BranchLocks(fuel: nat, w: World, c: Expr, d: Data, rest: List<Stmt>, st: State)
    requires fuel >= 8 && w.oracle(st.tick) == THROWS
    requires Eval(fuel - 2, w, c, st) == Run(Done(d), st) && Truthy(d)
    ensures 0 in ExecAll(fuel, w, Cons(If(c, Block(TAKE), Block(Nil)), rest), st).st.locks
  {
    TakeLocks(fuel - 3, w, st);
    assert Exec(fuel - 2, w, Block(TAKE), st) == ExecScope(fuel - 3, w, TAKE, st);
    assert Exec(fuel - 1, w, If(c, Block(TAKE), Block(Nil)), st) == Exec(fuel - 2, w, Block(TAKE), st);
  }

  lemma BranchSilent(p: Program, c: Expr, env: Env)
    requires Visit(p, c, env) == NOTHING && Evaluate(c, env) == Some(Bool(false))
    ensures Statement(p, If(c, Block(TAKE), Block(Nil)), env) == Flow(false, NOTHING)
    ensures Silent(Statements(p, Cons(If(c, Block(TAKE), Block(Nil)), Nil), env).sum)
  {
    assert Statement(p, If(c, Block(TAKE), Block(Nil)), env) == Flow(false, NOTHING.Plus(NOTHING));
    SilentThen(p, If(c, Block(TAKE), Block(Nil)), Nil, env);
  }

  lemma BranchShape(c: Expr)
    requires forall path :: Writes(c, path) == []
    ensures var s := If(c, Block(TAKE), Block(Nil)); Binders(s) == [] && StmtWrites(s, Nil) == []
  {
    NoTakeBinders();
    TakeWrites(Cons(Guard(c, true), Nil));
    assert BodyWrites(Nil, Cons(Guard(c, false), Nil)) == [];
    assert Writes(c, Nil) == [];
    assert Binders(Block(TAKE)) == [] && Binders(Block(Nil)) == [];
  }

  lemma TakeWrites(path: List<Guard>)
    ensures StmtWrites(Block(TAKE), path) == []
  {
    assert Writes(Lock(0, Nil), path) == [];
    assert StmtWrites(TAKE.head, path) == [];
    assert BodyWrites(TAKE.tail, path) == [];
    assert BodyWrites(TAKE, path) == [];
  }

  // ----- A label the audit cannot evaluate never matches a known mode

  const READ: Data := Prim(Str("read"))

  /** `switch (mode) { case kind: … }` */
  const LABELLED: Stmt := Switch(Name("mode"), Cons(Clause(Some(Name("kind")), TAKE), Nil))

  const UNKNOWN_LABEL: Function :=
    Function(Cons(Plain("mode", None), Cons(Plain("kind", None), Nil)), Cons(LABELLED, Nil))

  const MODE: Env := map[Var("mode") := Str("read")]

  lemma LabelledShape()
    ensures Tidy(UNKNOWN_LABEL) && Pinnable(UNKNOWN_LABEL.params, MODE) && WithLocals(UNKNOWN_LABEL, MODE) == MODE
  {
    var f := UNKNOWN_LABEL;
    NoTakeBinders();
    assert ParamNames(f.params) == ["mode", "kind"];
    assert ClauseBinders(LABELLED.clauses) == [] && ClauseWrites(LABELLED.clauses, Nil) == [];
    assert BodyBinders(f.body) == [] && BodyWrites(f.body, Nil) == [];
  }

  lemma LabelledWalk(p: Program)
    ensures Statement(p, LABELLED, MODE) == Flow(false, NOTHING)
  {
    var clauses := LABELLED.clauses;
    assert !Matches(clauses.head, Str("read"), MODE);
    assert RowLockAudit.Start(clauses, clauses, Str("read"), MODE) == Nil;
    assert WalkFrom(p, clauses, Str("read"), MODE) == Flow(false, NOTHING);
    assert Visit(p, LABELLED.d, MODE) == NOTHING;
    assert NOTHING.Plus(NOTHING) == NOTHING;
  }

  lemma LabelledSilent()
    ensures Closed([UNKNOWN_LABEL], MODE, {Target(0, MODE)})
  {
    var f := UNKNOWN_LABEL;
    LabelledShape();
    LabelledWalk([f]);
    SilentThen([f], LABELLED, Nil, MODE);
    PlainSilent([f], "kind", Nil, MODE);
    PlainSilent([f], "mode", f.params.tail, MODE);
    ClosedAlone(f, MODE, MODE);
  }

  lemma LabelledSwitch(w: World, st: State)
    requires "kind" in st.store && st.store["kind"].d == READ && "mode" in st.store && st.store["mode"].d == READ
    requires w.oracle(st.tick) == THROWS
    ensures 0 in Exec(20, w, LABELLED, st).st.locks
  {
    var clauses := LABELLED.clauses;
    assert Declared(TAKE) == {};
    assert ClausesDeclared(clauses) == {};
    var inside := Enter({}, st);
    assert Eval(18, w, Name("kind"), inside) == Run(Done(READ), inside);
    assert FindClause(19, w, READ, clauses, clauses, inside) == ClauseRun(Done(UNDEFINED), clauses, inside);
    TakeLocks(18, w, inside);
    assert Enter({}, inside) == inside;
    assert 0 in ExecAll(18, w, TAKE, inside).st.locks;
    assert Eval(19, w, LABELLED.d, st) == Run(Done(READ), st);
    assert Exec(20, w, LABELLED, st) == ExecSwitch(19, w, READ, clauses, st);
  }

  lemma LabelledRun()
    ensures 0 in LocksTaken([UNKNOWN_LABEL], 0, {}, Throws, 22, Cons(READ, Cons(READ, Nil)), [], 0)
  {
    var f, w := UNKNOWN_LABEL, World([UNKNOWN_LABEL], {}, Throws);
    var first := State(map["mode" := Binding(READ, false)], [], 0, {});
    var st := State(map["mode" := Binding(READ, false), "kind" := Binding(READ, false)], [], 0, {});
    BindPlain(21, w, "mode", READ, f.params.tail, Cons(READ, Nil), Start([]));
    BindPlain(20, w, "kind", READ, Nil, Nil, first);
    LabelledSwitch(w, st);
    BodyLocks(22, [f], Throws, Cons(READ, Cons(READ, Nil)), [], st);
  }

  lemma LabelledFits()
    ensures ParamsOk(UNKNOWN_LABEL.params, Cons(READ, Cons(READ, Nil)), MODE, [])
  {
    assert ParamOk(UNKNOWN_LABEL.params.tail.head, READ, MODE, []);
  }

  lemma UnknownLabelMissed()
    ensures Tidy(UNKNOWN_LABEL) && Missed([UNKNOWN_LABEL], MODE, Throws, Cons(READ, Cons(READ, Nil)), [])
  {
    LabelledShape();
    LabelledSilent();
    LabelledFits();
    LabelledRun();
    MissedBy([UNKNOWN_LABEL], MODE, MODE, Throws, Cons(READ, Cons(READ, Nil)), [], 22, {Target(0, MODE)});
  }

  // ----- A name unpacked with `let` keeps its pin although it is reassigned

  const YES: Data := Prim(Bool(true))

  const SET: Expr := Assign("lock", Lit(Bool(true)))

  /** `let { lock } = options; lock = true; if (lock) …` */
  const REASSIGNED: Function :=
    Function(Cons(Plain("options", None), Nil),
             Cons(Unpack(false, "options", Cons(Pick("lock", "lock"), Nil)),
                  Cons(ExprStmt(SET), Cons(If(Name("lock"), Block(TAKE), Block(Nil)), Nil))))

  /** The argument is the first object, `{ lock: false }`. */
  const OPTIONS: Data := Ref(0)

  const HEAP: Heap := [map["lock" := Prim(Bool(false))]]

  const UNLOCKED: Env := map[Member("options", "lock") := Bool(false)]

  const UNPACKED: Env := UNLOCKED[Var("lock") := Bool(false)]

  lemma ReassignedShape()
    ensures ParamNames(REASSIGNED.params) == ["options"]
    ensures BodyBinders(REASSIGNED.body) == [Picking(false, "options", "lock", "lock")]
    ensures BodyWrites(REASSIGNED.body, Nil) == [Writing(Var("lock"), Nil)]
  {
    var body := REASSIGNED.body;
    BranchShape(Name("lock"));
    assert PickBinders(false, "options", body.head.picks) == [Picking(false, "options", "lock", "lock")];
    assert StmtWrites(body.tail.head, Nil) == [Writing(Var("lock"), Nil)];
  }

  lemma ReassignedLocals()
    ensures Pinnable(REASSIGNED.params, UNLOCKED) && WithLocals(REASSIGNED, UNLOCKED) == UNPACKED
  {
    ReassignedShape();
    var writes, binders := BodyWrites(REASSIGNED.body, Nil), BodyBinders(REASSIGNED.body);
    assert Unassigned(UNLOCKED, writes) == UNLOCKED;
    assert binders[1..] == [];
    assert PinPicks(binders, UNLOCKED, UNLOCKED) == UNPACKED;
    assert PinLocals(binders, binders, writes, UNLOCKED, UNPACKED) == UNPACKED;
  }

  lemma ReassignedBody(p: Program)
    ensures Silent(Statements(p, REASSIGNED.body, UNPACKED).sum)
  {
    var body := REASSIGNED.body;
    BranchSilent(p, Name("lock"), UNPACKED);
    ExprSilent(p, SET, body.tail.tail, UNPACKED);
    assert Statement(p, body.head, UNPACKED) == Flow(false, NOTHING);
    SilentThen(p, body.head, body.tail, UNPACKED);
  }

  lemma ReassignedSilent()
    ensures Closed([REASSIGNED], UNLOCKED, {Target(0, UNLOCKED)})
  {
    ReassignedLocals();
    ReassignedBody([REASSIGNED]);
    PlainSilent([REASSIGNED], "options", Nil, UNPACKED);
    ClosedAlone(REASSIGNED, UNLOCKED, UNPACKED);
  }

  lemma ReassignedRun()
    ensures 0 in LocksTaken([REASSIGNED], 0, {}, Throws, 22, Cons(OPTIONS, Nil), HEAP, 0)
  {
    var w, body := World([REASSIGNED], {}, Throws), REASSIGNED.body;
    var st := State(map["options" := Binding(OPTIONS, false)], HEAP, 0, {});
    BindPlain(21, w, "options", OPTIONS, Nil, Nil, Start(HEAP));
    var st1 := st.(store := st.store["lock" := Binding(Prim(Bool(false)), false)]);
    assert Get(OPTIONS, "lock", HEAP) == Prim(Bool(false));
    assert PickAll(w, false, OPTIONS, body.head.picks, st) == Run(Done(UNDEFINED), st1);
    StepTo(21, w, body.head, body.tail, st, UNDEFINED, st1);
    ReassignedRest(w, st1);
    BodyLocks(22, [REASSIGNED], Throws, Cons(OPTIONS, Nil), HEAP, st);
  }

  lemma ReassignedRest(w: World, st: State)
    requires "lock" in st.store && !st.store["lock"].fixed && w.oracle(st.tick) == THROWS
    ensures 0 in ExecAll(20, w, REASSIGNED.body.tail, st).st.locks
  {
    var rest := REASSIGNED.body.tail;
    var next := st.(store := st.store["lock" := Binding(YES, false)]);
    assert Eval(17, w, Lit(Bool(true)), st) == Run(Done(YES), st);
    assert Eval(18, w, SET, st) == Run(Done(YES), next);
    assert Exec(19, w, rest.head, st) == Run(Done(YES), next);
    StepTo(20, w, rest.head, rest.tail, st, YES, next);
    assert Eval(17, w, Name("lock"), next) == Run(Done(YES), next);
    BranchLocks(19, w, Name("lock"), YES, Nil, next);
  }

  /** The argument fits the pin, in any environment that pins nothing else of it. */
  lemma OptionsFit(env: Env)
    requires forall k <- env :: k.x == "options" ==> k == Member("options", "lock") && env[k] == Bool(false)
    ensures ParamsOk(Cons(Plain("options", None), Nil), Cons(OPTIONS, Nil), env, HEAP)
  {
    assert Get(OPTIONS, "lock", HEAP) == Prim(Bool(false));
    assert ParamOk(Plain("options", None), OPTIONS, env, HEAP);
    assert ParamsOk(Nil, Nil, env, HEAP);
  }

  lemma ReassignedUnpackMissed()
    ensures Missed([REASSIGNED], UNLOCKED, Throws, Cons(OPTIONS, Nil), HEAP)
  {
    ReassignedLocals();
    ReassignedSilent();
    OptionsFit(UNPACKED);
    ReassignedRun();
    MissedBy([REASSIGNED], UNLOCKED, UNPACKED, Throws, Cons(OPTIONS, Nil), HEAP, 22, {Target(0, UNLOCKED)});
  }

  // ----- An initializer that assigns a pinned parameter

  /** `mode` is pinned, but the default of the second parameter assigns it. */
  const ASSIGN: Expr := Assign("mode", Lit(Str("write")))

  const TEST: Expr := Equal(Name("mode"), Lit(Str("write")), false)

  const BRANCH: Stmt := If(TEST, Block(TAKE), Block(Nil))

  const WRITE: Data := Prim(Str("write"))

  const ASSIGNING: Function :=
    Function(Cons(Plain("mode", None), Cons(Plain("extra", Some(ASSIGN)), Nil)), Cons(BRANCH, Nil))

  lemma TestShape()
    ensures Binders(BRANCH) == [] && StmtWrites(BRANCH, Nil) == []
  {
    assert forall path :: Writes(TEST, path) == [];
    BranchShape(TEST);
  }

  lemma TestSilent(p: Program)
    ensures Statement(p, BRANCH, MODE) == Flow(false, NOTHING) && Silent(Statements(p, Cons(BRANCH, Nil), MODE).sum)
  {
    assert Evaluate(TEST, MODE) == Some(Bool(false));
    assert Visit(p, TEST, MODE) == NOTHING.Plus(NOTHING) == NOTHING;
    BranchSilent(p, TEST, MODE);
  }

  lemma TestLocks(fuel: nat, w: World, st: State)
    requires fuel >= 8 && "mode" in st.store && st.store["mode"].d == WRITE && w.oracle(st.tick) == THROWS
    ensures 0 in ExecAll(fuel, w, Cons(BRANCH, Nil), st).st.locks
  {
    assert Eval(fuel - 3, w, Name("mode"), st) == Run(Done(WRITE), st);
    assert Eval(fuel - 3, w, Lit(Str("write")), st) == Run(Done(WRITE), st);
    assert Eval(fuel - 2, w, TEST, st) == Run(Done(YES), st);
    BranchLocks(fuel, w, TEST, YES, Nil, st);
  }

  lemma AssigningShape()
    ensures Tidy(ASSIGNING) && Pinnable(ASSIGNING.params, MODE) && WithLocals(ASSIGNING, MODE) == MODE
  {
    TestShape();
    assert ParamNames(ASSIGNING.params) == ["mode", "extra"];
    assert BodyBinders(ASSIGNING.body) == [] && BodyWrites(ASSIGNING.body, Nil) == [];
  }

  lemma AssigningSilent()
    ensures Closed([ASSIGNING], MODE, {Target(0, MODE)})
  {
    var p, params := [ASSIGNING], ASSIGNING.params;
    AssigningShape();
    TestSilent(p);
    assert Visit(p, ASSIGN, MODE) == NOTHING;
    assert VisitParam(p, params.tail.head, MODE) == NOTHING;
    assert Silent(VisitParams(p, params.tail, MODE));
    PlainSilent(p, "mode", params.tail, MODE);
    ClosedAlone(ASSIGNING, MODE, MODE);
  }

  lemma AssigningFits()
    ensures ParamsOk(ASSIGNING.params, Cons(READ, Nil), MODE, [])
  {
    assert ParamOk(ASSIGNING.params.head, READ, MODE, []);
    assert ParamOk(ASSIGNING.params.tail.head, UNDEFINED, MODE, []);
  }

  lemma AssigningRun()
    ensures 0 in LocksTaken([ASSIGNING], 0, {}, Throws, 22, Cons(READ, Nil), [], 0)
  {
    var f, w := ASSIGNING, World([ASSIGNING], {}, Throws);
    var st := State(map["mode" := Binding(READ, false)], [], 0, {});
    BindPlain(21, w, "mode", READ, f.params.tail, Nil, Start([]));
    var st1 := st.(store := map["mode" := Binding(WRITE, false)]);
    assert Eval(17, w, ASSIGN, st) == Run(Done(WRITE), st1) by {
      assert Eval(16, w, Lit(Str("write")), st) == Run(Done(WRITE), st);
    }
    var st2 := st.(store := map["mode" := Binding(WRITE, false), "extra" := Binding(WRITE, false)]);
    assert BindOne(19, w, f.params.tail.head, UNDEFINED, st) == Run(Done(WRITE), st2);
    assert Bind(20, w, f.params.tail, Nil, st) == Run(Done(UNDEFINED), st2);
    TestLocks(21, w, st2);
    BodyLocks(22, [f], Throws, Cons(READ, Nil), [], st2);
  }

  lemma AssigningInitializerMissed()
    ensures Tidy(ASSIGNING) && Missed([ASSIGNING], MODE, Throws, Cons(READ, Nil), [])
  {
    AssigningShape();
    AssigningSilent();
    AssigningFits();
    AssigningRun();
    MissedBy([ASSIGNING], MODE, MODE, Throws, Cons(READ, Nil), [], 22, {Target(0, MODE)});
  }

  // ----- A local that shadows a pinned parameter

  const SHADOWING: List<Stmt> := Cons(Declare(true, "mode", Lit(Str("write"))), Cons(BRANCH, Nil))

  const SHADOWED: Function := Function(Cons(Plain("mode", None), Nil), Cons(Block(SHADOWING), Nil))

  lemma ShadowedShape()
    ensures Pinnable(SHADOWED.params, MODE) && WithLocals(SHADOWED, MODE) == MODE
  {
    var f, b := SHADOWED, Local(true, "mode", Lit(Str("write")));
    TestShape();
    assert ParamNames(f.params) == ["mode"];
    assert BodyBinders(SHADOWING) == [b] && BodyWrites(SHADOWING, Nil) == [];
    assert BodyBinders(f.body) == [b] && BodyWrites(f.body, Nil) == [];
    assert [b][1..] == [];
    assert Unassigned(MODE, []) == MODE && PinPicks([b], MODE, MODE) == MODE;
    assert PinLocals([b], [b], [], MODE, MODE) == MODE;
  }

  lemma ShadowedSilent()
    ensures Closed([SHADOWED], MODE, {Target(0, MODE)})
  {
    var p := [SHADOWED];
    ShadowedShape();
    TestSilent(p);
    DeclareSilent(p, true, "mode", Lit(Str("write")), SHADOWING.tail, MODE);
    assert Silent(Statements(p, SHADOWING, MODE).sum) && !Statements(p, SHADOWING, MODE).exits;
    SilentThen(p, Block(SHADOWING), Nil, MODE);
    PlainSilent(p, "mode", Nil, MODE);
    ClosedAlone(SHADOWED, MODE, MODE);
  }

  lemma ShadowedFits()
    ensures ParamsOk(SHADOWED.params, Cons(READ, Nil), MODE, [])
  {
    assert ParamOk(SHADOWED.params.head, READ, MODE, []);
  }

  lemma ShadowedRun()
    ensures 0 in LocksTaken([SHADOWED], 0, {}, Throws, 22, Cons(READ, Nil), [], 0)
  {
    var w := World([SHADOWED], {}, Throws);
    var st := State(map["mode" := Binding(READ, false)], [], 0, {});
    BindPlain(21, w, "mode", READ, Nil, Nil, Start([]));
    assert Declared(SHADOWING.tail) == {};
    assert Declared(SHADOWING) == {"mode"};
    var inside := Start([]);
    assert Enter({"mode"}, st) == inside;
    var st1 := State(map["mode" := Binding(WRITE, true)], [], 0, {});
    assert Exec(18, w, SHADOWING.head, inside) == Run(Done(WRITE), st1);
    StepTo(19, w, SHADOWING.head, SHADOWING.tail, inside, WRITE, st1);
    TestLocks(18, w, st1);
    assert 0 in ExecScope(19, w, SHADOWING, st).st.locks;
    assert Exec(20, w, Block(SHADOWING), st) == ExecScope(19, w, SHADOWING, st);
    LocksStay(21, w, Block(SHADOWING), st);
    BodyLocks(22, [SHADOWED], Throws, Cons(READ, Nil), [], st);
  }

  lemma ShadowedNameMissed()
    ensures Missed([SHADOWED], MODE, Throws, Cons(READ, Nil), [])
  {
    ShadowedShape();
    ShadowedSilent();
    ShadowedFits();
    ShadowedRun();
    MissedBy([SHADOWED], MODE, MODE, Throws, Cons(READ, Nil), [], 22, {Target(0, MODE)});
  }

  // ----- A name unpacked in two scopes

  const PICK: List<Pick> := Cons(Pick("lock", "lock"), Nil)

  const INNER: List<Stmt> :=
    Cons(Unpack(true, "b", PICK), Cons(If(Name("lock"), Block(TAKE), Block(Nil)), Nil))

  /** `const { lock } = a; { const { lock } = b; if (lock) … }` */
  const TWICE: Function :=
    Function(Cons(Plain("a", None), Cons(Plain("b", None), Nil)),
             Cons(Unpack(true, "a", PICK), Cons(Block(INNER), Nil)))

  const FIRST: Env := map[Member("a", "lock") := Bool(false)]

  const EITHER: Env := FIRST[Var("lock") := Bool(false)]

  const PAIR: Heap := [map["lock" := Prim(Bool(false))], map["lock" := YES]]

  lemma TwiceShape()
    ensures ParamNames(TWICE.params) == ["a", "b"] && BodyWrites(TWICE.body, Nil) == []
    ensures BodyBinders(TWICE.body) == [Picking(true, "a", "lock", "lock"), Picking(true, "b", "lock", "lock")]
  {
    BranchShape(Name("lock"));
    assert PickBinders(true, "b", PICK) == [Picking(true, "b", "lock", "lock")];
    assert BodyBinders(INNER) == [Picking(true, "b", "lock", "lock")] && BodyWrites(INNER, Nil) == [];
    assert PickBinders(true, "a", PICK) == [Picking(true, "a", "lock", "lock")];
    assert StmtWrites(Block(INNER), Nil) == [];
  }

  lemma TwiceLocals()
    ensures Pinnable(TWICE.params, FIRST) && WithLocals(TWICE, FIRST) == EITHER
  {
    TwiceShape();
    var binders := BodyBinders(TWICE.body);
    var later := [Picking(true, "b", "lock", "lock")];
    assert binders[1..] == later && later[1..] == [];
    assert Unassigned(FIRST, []) == FIRST;
    assert PinPicks(later, FIRST, EITHER) == EITHER;
    assert PinPicks(binders, FIRST, FIRST) == EITHER;
    assert PinLocals(later, binders, [], FIRST, EITHER) == EITHER;
    assert PinLocals(binders, binders, [], FIRST, EITHER) == EITHER;
  }

  lemma TwiceBody(p: Program)
    ensures Silent(Statements(p, TWICE.body, EITHER).sum)
  {
    BranchSilent(p, Name("lock"), EITHER);
    assert Statement(p, INNER.head, EITHER) == Flow(false, NOTHING);
    SilentThen(p, INNER.head, INNER.tail, EITHER);
    assert Statement(p, Block(INNER), EITHER) == Statements(p, INNER, EITHER);
    SilentThen(p, Block(INNER), Nil, EITHER);
    assert Statement(p, TWICE.body.head, EITHER) == Flow(false, NOTHING);
    SilentThen(p, TWICE.body.head, TWICE.body.tail, EITHER);
  }

  lemma TwiceSilent()
    ensures Closed([TWICE], FIRST, {Target(0, FIRST)})
  {
    TwiceLocals();
    TwiceBody([TWICE]);
    PlainSilent([TWICE], "b", Nil, EITHER);
    PlainSilent([TWICE], "a", TWICE.params.tail, EITHER);
    ClosedAlone(TWICE, FIRST, EITHER);
  }

  lemma TwiceFits()
    ensures ParamsOk(TWICE.params, Cons(Ref(0), Cons(Ref(1), Nil)), EITHER, PAIR)
  {
    assert Get(Ref(0), "lock", PAIR) == Prim(Bool(false));
    assert ParamOk(TWICE.params.head, Ref(0), EITHER, PAIR);
    assert ParamOk(TWICE.params.tail.head, Ref(1), EITHER, PAIR);
  }

  /** Unpacking `lock` of an object. */
  lemma PickLock(fuel: nat, w: World, y: string, d: Data, st: State)
    requires fuel > 0 && y in st.store && IsObject(st.store[y].d, st.heap) && Get(st.store[y].d, "lock", st.heap) == d
    ensures Exec(fuel, w, Unpack(true, y, PICK), st) ==
            Run(Done(UNDEFINED), st.(store := st.store["lock" := Binding(d, true)]))
  {
    assert PickAll(w, true, st.store[y].d, PICK.tail, st.(store := st.store["lock" := Binding(d, true)])) ==
           Run(Done(UNDEFINED), st.(store := st.store["lock" := Binding(d, true)]));
  }

  lemma InnerLocks(w: World, st: State)
    requires "b" in st.store && st.store["b"].d == Ref(1) && st.heap == PAIR && w.oracle(st.tick) == THROWS
    ensures 0 in ExecAll(20, w, TWICE.body.tail, st).st.locks
  {
    assert Declared(INNER.tail) == {} && Picked(PICK) == {"lock"};
    var inside := Enter(Declared(INNER), st);
    assert Declared(INNER) == {"lock"};
    assert "b" in inside.store && Get(Ref(1), "lock", PAIR) == YES;
    var next := inside.(store := inside.store["lock" := Binding(YES, true)]);
    PickLock(17, w, "b", YES, inside);
    StepTo(18, w, INNER.head, INNER.tail, inside, UNDEFINED, next);
    assert Eval(15, w, Name("lock"), next) == Run(Done(YES), next);
    BranchLocks(17, w, Name("lock"), YES, Nil, next);
    assert Exec(19, w, Block(INNER), st) == ExecScope(18, w, INNER, st);
    LocksStay(20, w, Block(INNER), st);
  }

  lemma TwiceRun()
    ensures 0 in LocksTaken([TWICE], 0, {}, Throws, 22, Cons(Ref(0), Cons(Ref(1), Nil)), PAIR, 0)
  {
    var w, body := World([TWICE], {}, Throws), TWICE.body;
    var first := State(map["a" := Binding(Ref(0), false)], PAIR, 0, {});
    var st := State(map["a" := Binding(Ref(0), false), "b" := Binding(Ref(1), false)], PAIR, 0, {});
    BindPlain(21, w, "a", Ref(0), TWICE.params.tail, Cons(Ref(1), Nil), Start(PAIR));
    BindPlain(20, w, "b", Ref(1), Nil, Nil, first);
    var next := st.(store := st.store["lock" := Binding(Prim(Bool(false)), true)]);
    PickLock(20, w, "a", Prim(Bool(false)), st);
    StepTo(21, w, body.head, body.tail, st, UNDEFINED, next);
    InnerLocks(w, next);
    BodyLocks(22, [TWICE], Throws, Cons(Ref(0), Cons(Ref(1), Nil)), PAIR, st);
  }

  lemma RepeatedUnpackMissed()
    ensures Missed([TWICE], FIRST, Throws, Cons(Ref(0), Cons(Ref(1), Nil)), PAIR)
  {
    TwiceLocals();
    TwiceSilent();
    TwiceFits();
    TwiceRun();
    MissedBy([TWICE], FIRST, EITHER, Throws, Cons(Ref(0), Cons(Ref(1), Nil)), PAIR, 22, {Target(0, FIRST)});
  }

  // ----- A pinned property written through another name

  const OPTION: Expr := Prop("options", "lock", false)

  const CHECK: Stmt := If(OPTION, Block(TAKE), Block(Nil))

  const LOCKED: Heap := [map["lock" := YES]]

  lemma CheckLocks(fuel: nat, w: World, st: State)
    requires fuel >= 8 && "options" in st.store && st.store["options"].d == OPTIONS && st.heap == LOCKED
    requires w.oracle(st.tick) == THROWS
    ensures 0 in ExecAll(fuel, w, Cons(CHECK, Nil), st).st.locks
  {
    assert Get(OPTIONS, "lock", LOCKED) == YES;
    assert Eval(fuel - 2, w, OPTION, st) == Run(Done(YES), st);
    BranchLocks(fuel, w, OPTION, YES, Nil, st);
  }

  lemma CheckRegular()
    ensures WfStmt(CHECK) && Fixed(CHECK)
  {
    assert WfStmts(TAKE) && FixedAll(TAKE);
  }

  lemma CheckSilent(p: Program)
    ensures Silent(Statements(p, Cons(CHECK, Nil), UNLOCKED).sum)
  {
    assert Visit(p, OPTION, UNLOCKED) == NOTHING;
    BranchSilent(p, OPTION, UNLOCKED);
  }

  lemma LockPut()
    ensures Put(HEAP, 0, "lock", YES) == LOCKED
  {
    assert HEAP[0]["lock" := YES] == LOCKED[0];
  }

  /** Writing `lock` of the object that a name holds. */
  lemma SetLocks(fuel: nat, w: World, x: string, st: State)
    requires fuel >= 3 && x in st.store && st.store[x].d == OPTIONS && st.heap == HEAP
    ensures Exec(fuel, w, ExprStmt(AssignProp(x, "lock", Lit(Bool(true)))), st) == Run(Done(YES), st.(heap := LOCKED))
  {
    assert Eval(fuel - 2, w, Lit(Bool(true)), st) == Run(Done(YES), st);
    LockPut();
  }

  /** `const o = options; o.lock = true; if (options.lock) …` */
  const ALIASED: Function :=
    Function(Cons(Plain("options", None), Nil),
             Cons(Declare(true, "o", Name("options")),
                  Cons(ExprStmt(AssignProp("o", "lock", Lit(Bool(true)))), Cons(CHECK, Nil))))

  lemma AliasedShape()
    ensures ParamNames(ALIASED.params) == ["options"]
    ensures BodyBinders(ALIASED.body) == [Local(true, "o", Name("options"))]
    ensures BodyWrites(ALIASED.body, Nil) == [Writing(Member("o", "lock"), Nil)]
  {
    assert forall path :: Writes(OPTION, path) == [];
    BranchShape(OPTION);
    assert StmtWrites(ALIASED.body.tail.head, Nil) == [Writing(Member("o", "lock"), Nil)];
  }

  lemma AliasedRegular()
    ensures Regular([ALIASED])
  {
    AliasedShape();
    assert Tidy(ALIASED);
    CheckRegular();
  }

  lemma AliasedLocals()
    ensures Pinnable(ALIASED.params, UNLOCKED) && WithLocals(ALIASED, UNLOCKED) == UNLOCKED
  {
    AliasedShape();
    var b, writes := Local(true, "o", Name("options")), [Writing(Member("o", "lock"), Nil)];
    assert [b][1..] == [];
    assert Unassigned(UNLOCKED, writes) == UNLOCKED && PinPicks([b], UNLOCKED, UNLOCKED) == UNLOCKED;
    assert PinLocals([b], [b], writes, UNLOCKED, UNLOCKED) == UNLOCKED;
  }

  lemma AliasedBody(p: Program)
    ensures Silent(Statements(p, ALIASED.body, UNLOCKED).sum)
  {
    var rest := Cons(CHECK, Nil);
    var write := AssignProp("o", "lock", Lit(Bool(true)));
    CheckSilent(p);
    ExprSilent(p, write, rest, UNLOCKED);
    DeclareSilent(p, true, "o", Name("options"), Cons(ExprStmt(write), rest), UNLOCKED);
  }

  lemma AliasedSilent()
    ensures Closed([ALIASED], UNLOCKED, {Target(0, UNLOCKED)})
  {
    AliasedLocals();
    AliasedBody([ALIASED]);
    PlainSilent([ALIASED], "options", Nil, UNLOCKED);
    ClosedAlone(ALIASED, UNLOCKED, UNLOCKED);
  }

  lemma AliasedRun()
    ensures 0 in LocksTaken([ALIASED], 0, {}, Throws, 22, Cons(OPTIONS, Nil), HEAP, 0)
  {
    var w, body := World([ALIASED], {}, Throws), ALIASED.body;
    var st := State(map["options" := Binding(OPTIONS, false)], HEAP, 0, {});
    BindPlain(21, w, "options", OPTIONS, Nil, Nil, Start(HEAP));
    var st1 := st.(store := st.store["o" := Binding(OPTIONS, true)]);
    assert Eval(19, w, Name("options"), st) == Run(Done(OPTIONS), st);
    StepTo(21, w, body.head, body.tail, st, OPTIONS, st1);
    SetLocks(19, w, "o", st1);
    StepTo(20, w, body.tail.head, body.tail.tail, st1, YES, st1.(heap := LOCKED));
    CheckLocks(19, w, st1.(heap := LOCKED));
    BodyLocks(22, [ALIASED], Throws, Cons(OPTIONS, Nil), HEAP, st);
  }

  lemma SharedObjectMissed()
    ensures Regular([ALIASED]) && Missed([ALIASED], UNLOCKED, Throws, Cons(OPTIONS, Nil), HEAP)
  {
    AliasedRegular();
    AliasedLocals();
    AliasedSilent();
    OptionsFit(UNLOCKED);
    AliasedRun();
    MissedBy([ALIASED], UNLOCKED, UNLOCKED, Throws, Cons(OPTIONS, Nil), HEAP, 22, {Target(0, UNLOCKED)});
  }

  // ----- A pinned property written in a callee

  /** `helper(options); if (options.lock) …` */
  const CALLING: Function :=
    Function(Cons(Plain("options", None), Nil),
             Cons(ExprStmt(Call(1, Cons(Name("options"), Nil))), Cons(CHECK, Nil)))

  /** `opts.lock = true` */
  const HELPER: Function :=
    Function(Cons(Plain("opts", None), Nil), Cons(ExprStmt(AssignProp("opts", "lock", Lit(Bool(true)))), Nil))

  const HELPED: Program := [CALLING, HELPER]

  function HelperPins(): Env { CalleeEnv(HELPER.params, Cons(Name("options"), Nil), UNLOCKED) }

  lemma CallingShape()
    ensures Pinnable(CALLING.params, UNLOCKED) && WithLocals(CALLING, UNLOCKED) == UNLOCKED
    ensures ParamNames(CALLING.params) == ["options"] && BodyBinders(CALLING.body) == []
  {
    assert forall path :: Writes(OPTION, path) == [];
    BranchShape(OPTION);
    assert ParamNames(CALLING.params) == ["options"];
    assert StmtWrites(CALLING.body.head, Nil) == [];
    assert BodyBinders(CALLING.body) == [] && BodyWrites(CALLING.body, Nil) == [];
    assert Unassigned(UNLOCKED, []) == UNLOCKED;
  }

  lemma CallingRegular()
    ensures Tidy(CALLING) && WfParams(CALLING.params) && WfStmts(CALLING.body) && FixedAll(CALLING.body)
  {
    CallingShape();
    CheckRegular();
    assert WfExprs(CALLING.body.head.e.args);
  }

  lemma HelperRegular()
    ensures Tidy(HELPER) && WfParams(HELPER.params) && WfStmts(HELPER.body) && FixedAll(HELPER.body)
  {
    assert ParamNames(HELPER.params) == ["opts"] && BodyBinders(HELPER.body) == [];
  }

  lemma HelpedRegular()
    ensures Regular(HELPED)
  {
    CallingRegular();
    HelperRegular();
  }

  lemma HelperSilent(env: Env)
    ensures Silent(VisitParams(HELPED, HELPER.params, env)) && Silent(Statements(HELPED, HELPER.body, env).sum)
  {
    ExprSilent(HELPED, HELPER.body.head.e, Nil, env);
    PlainSilent(HELPED, "opts", Nil, env);
  }

  lemma CallingSilent()
    ensures Summarize(HELPED, Target(0, UNLOCKED)) == Summary({}, [Target(1, HelperPins())])
  {
    var args := Cons(Name("options"), Nil);
    CallingShape();
    CheckSilent(HELPED);
    assert VisitAll(HELPED, args, UNLOCKED) == NOTHING;
    CallNoted(HELPED, 1, args, CALLING.body.tail, UNLOCKED);
    PlainSilent(HELPED, "options", Nil, UNLOCKED);
  }

  lemma HelpedClosed()
    ensures Closed(HELPED, UNLOCKED, {Target(0, UNLOCKED), Target(1, HelperPins())})
  {
    CallingSilent();
    HelperSilent(WithLocals(HELPER, HelperPins()));
  }

  lemma HelperRun(w: World, st: State)
    requires w.program == HELPED && w.barriers == {} && st.heap == HEAP
    ensures Invoke(18, w, 1, Cons(OPTIONS, Nil), st) == Run(Done(UNDEFINED), st.(heap := LOCKED))
  {
    var start := st.(store := map[]);
    var bound := st.(store := map["opts" := Binding(OPTIONS, false)]);
    BindPlain(16, w, "opts", OPTIONS, Nil, Nil, start);
    assert Bind(16, w, HELPER.params, Cons(OPTIONS, Nil), start) == Run(Done(UNDEFINED), bound);
    SetLocks(15, w, "opts", bound);
    StepTo(16, w, HELPER.body.head, Nil, bound, YES, bound.(heap := LOCKED));
    assert RunBody(17, w, HELPER, Cons(OPTIONS, Nil), st) == Run(Done(UNDEFINED), bound.(heap := LOCKED));
  }

  lemma HelpedRun()
    ensures 0 in LocksTaken(HELPED, 0, {}, Throws, 22, Cons(OPTIONS, Nil), HEAP, 0)
  {
    var w, body := World(HELPED, {}, Throws), CALLING.body;
    var st := State(map["options" := Binding(OPTIONS, false)], HEAP, 0, {});
    BindPlain(21, w, "options", OPTIONS, Nil, Nil, Start(HEAP));
    assert Eval(17, w, Name("options"), st) == Run(Done(OPTIONS), st);
    assert EvalAll(18, w, body.head.e.args, st) == ArgRun(Done(UNDEFINED), Cons(OPTIONS, Nil), st);
    HelperRun(w, st);
    assert Eval(19, w, body.head.e, st) == Run(Done(UNDEFINED), st.(heap := LOCKED));
    StepTo(21, w, body.head, body.tail, st, UNDEFINED, st.(heap := LOCKED));
    CheckLocks(20, w, st.(heap := LOCKED));
    BodyLocks(22, HELPED, Throws, Cons(OPTIONS, Nil), HEAP, st);
  }

  lemma HelpedMissed()
    ensures Missed(HELPED, UNLOCKED, Throws, Cons(OPTIONS, Nil), HEAP)
  {
    CallingShape();
    HelpedClosed();
    OptionsFit(UNLOCKED);
    HelpedRun();
    MissedBy(HELPED, UNLOCKED, UNLOCKED, Throws, Cons(OPTIONS, Nil), HEAP, 22,
             {Target(0, UNLOCKED), Target(1, HelperPins())});
  }

  lemma CalleeWriteMissed()
    ensures Regular(HELPED) && Missed(HELPED, UNLOCKED, Throws, Cons(OPTIONS, Nil), HEAP)
  {
    HelpedRegular();
    HelpedMissed();
  }

  // ----- A pinned property written by code out of sight

  /** `library(options); if (options.lock) …` */
  const UNSEEN: Function :=
    Function(Cons(Plain("options", None), Nil), Cons(ExprStmt(Opaque(Cons(Name("options"), Nil))), Cons(CHECK, Nil)))

  /** The library sets the property and returns; everything later throws. */
  function Sets(tick: nat): Choice {
    if tick == 0 then Choice(Give(UNDEFINED), [], [Poke(0, "lock", YES)]) else THROWS
  }

  lemma UnseenShape()
    ensures Pinnable(UNSEEN.params, UNLOCKED) && WithLocals(UNSEEN, UNLOCKED) == UNLOCKED
    ensures ParamNames(UNSEEN.params) == ["options"] && BodyBinders(UNSEEN.body) == []
  {
    assert forall path :: Writes(OPTION, path) == [];
    BranchShape(OPTION);
    assert ParamNames(UNSEEN.params) == ["options"];
    assert StmtWrites(UNSEEN.body.head, Nil) == [];
    assert BodyBinders(UNSEEN.body) == [] && BodyWrites(UNSEEN.body, Nil) == [];
    assert Unassigned(UNLOCKED, []) == UNLOCKED;
  }

  lemma UnseenRegular()
    ensures Regular([UNSEEN])
  {
    UnseenShape();
    CheckRegular();
    assert Tidy(UNSEEN);
  }

  lemma UnseenSilent()
    ensures Closed([UNSEEN], UNLOCKED, {Target(0, UNLOCKED)})
  {
    var p, s := [UNSEEN], UNSEEN.body.head;
    UnseenShape();
    CheckSilent(p);
    assert VisitAll(p, s.e.parts, UNLOCKED) == NOTHING;
    ExprSilent(p, s.e, UNSEEN.body.tail, UNLOCKED);
    PlainSilent(p, "options", Nil, UNLOCKED);
    ClosedAlone(UNSEEN, UNLOCKED, UNLOCKED);
  }

  lemma UnseenRun()
    ensures 0 in LocksTaken([UNSEEN], 0, {}, Sets, 22, Cons(OPTIONS, Nil), HEAP, 0)
  {
    var w, body := World([UNSEEN], {}, Sets), UNSEEN.body;
    var st := State(map["options" := Binding(OPTIONS, false)], HEAP, 0, {});
    BindPlain(21, w, "options", OPTIONS, Nil, Nil, Start(HEAP));
    assert Eval(17, w, Name("options"), st) == Run(Done(OPTIONS), st);
    assert EvalAll(18, w, body.head.e.parts, st) == ArgRun(Done(UNDEFINED), Cons(OPTIONS, Nil), st);
    var pokes := [Poke(0, "lock", YES)];
    assert pokes[..0] == [] && HEAP + [] == HEAP;
    assert Poked(HEAP, []) == HEAP;
    LockPut();
    assert Poked(HEAP, pokes) == LOCKED;
    var next := st.(heap := LOCKED, tick := 1);
    assert Eval(19, w, body.head.e, st) == Run(Done(UNDEFINED), next);
    StepTo(21, w, body.head, body.tail, st, UNDEFINED, next);
    CheckLocks(20, w, next);
    BodyLocks(22, [UNSEEN], Sets, Cons(OPTIONS, Nil), HEAP, st);
  }

  lemma UnseenWriteMissed()
    ensures Regular([UNSEEN]) && Missed([UNSEEN], UNLOCKED, Sets, Cons(OPTIONS, Nil), HEAP)
  {
    UnseenRegular();
    UnseenShape();
    UnseenSilent();
    OptionsFit(UNLOCKED);
    UnseenRun();
    MissedBy([UNSEEN], UNLOCKED, UNLOCKED, Sets, Cons(OPTIONS, Nil), HEAP, 22, {Target(0, UNLOCKED)});
  }
}
