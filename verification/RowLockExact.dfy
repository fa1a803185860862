/**
 * What the row-lock audit reports for code it decides is not too much: a run that ends well takes every lock the walk
 * found, through all the calls it makes.
 */
module RowLockExact {
  import opened Options
  import opened RowLockLanguage
  import opened RowLockAudit
  import opened RowLockFacts
  import opened RowLockHeap
  import opened RowLockLocals
  import opened RowLockSound
  import opened RowLockRuns
  import opened RowLockReach
  import opened RowLockRoutes

  // ----- Code that the environment decides

  /** Every operand that may be skipped is decided to be skipped or not. */
  predicate Settles(e: Expr, env: Env) {
    match e
    case Lit(_) => true
    case Name(_) => true
    case Prop(_, _, _) => true
    case Not(e1) => Settles(e1, env)
    case And(l, r) => var v := Evaluate(l, env); v.Some? && (Truth(v.value) ==> Settles(r, env))
    case Or(l, r) => var v := Evaluate(l, env); v.Some? && (!Truth(v.value) ==> Settles(r, env))
    case Nullish(l, r) => var v := Evaluate(l, env); v.Some? && (Absent(v.value) ==> Settles(r, env))
    case Equal(l, r, _) => Settles(l, env) && Settles(r, env)
    case Cond(c, t, f) =>
      var v := Evaluate(c, env);
      v.Some? && if Truth(v.value) then Settles(t, env) else Settles(f, env)
    case Record(fields) => SettlesFields(fields, env)
    case Call(_, args) => SettlesAll(args, env)
    case Assign(_, e1) => Settles(e1, env)
    case AssignProp(_, _, e1) => Settles(e1, env)
    case Lock(_, spans) => SettlesAll(spans, env)
    case Opaque(parts) => SettlesAll(parts, env)
  }

  predicate SettlesAll(es: List<Expr>, env: Env) {
    es.Cons? ==> Settles(es.head, env) && SettlesAll(es.tail, env)
  }

  predicate SettlesFields(fs: List<Field>, env: Env) {
    fs.Cons? ==> Settles(fs.head.value, env) && SettlesFields(fs.tail, env)
  }

  /** Every branch and every switch is decided; loops and try statements are not. */
  predicate SettlesStmt(p: Program, s: Stmt, env: Env)
    decreases s, 2
  {
    match s
    case ExprStmt(e) => Settles(e, env)
    case Declare(_, _, init) => Settles(init, env)
    case Unpack(_, _, _) => true
    case Block(body) => SettlesBody(p, body, env)
    case If(c, t, f) =>
      var v := Evaluate(c, env);
      v.Some? && if Truth(v.value) then SettlesStmt(p, t, env) else SettlesStmt(p, f, env)
    case Return(e) => Settles(e, env)
    case Throw(e) => Settles(e, env)
    case Break => true
    case Switch(d, clauses) =>
      var v := Evaluate(d, env);
      StartWithin(clauses, clauses, if v.Some? then v.value else Undefined, env);
      v.Some? && Labelled(clauses, env) && SettlesThrough(p, Start(clauses, clauses, v.value, env), env)
    case _ => false
  }

  predicate SettlesBody(p: Program, ss: List<Stmt>, env: Env)
    decreases ss, 0
  {
    ss.Cons? ==> SettlesStmt(p, ss.head, env) && SettlesBody(p, ss.tail, env)
  }

  /** A clause is left by a break of its own or of a block in it, and not from within a branch. */
  predicate SettlesClause(p: Program, ss: List<Stmt>, env: Env)
    decreases ss, 0
  {
    ss.Cons? ==>
      ss.head.Break? ||
      (&& (if ss.head.Block? then SettlesClause(p, ss.head.body, env)
           else SettlesStmt(p, ss.head, env) && !Leaves(ss.head))
       && SettlesClause(p, ss.tail, env))
  }

  /** The clauses from the one that matches up to the one that ends the switch. */
  predicate SettlesThrough(p: Program, clauses: List<Clause>, env: Env)
    decreases clauses, 1
  {
    clauses.Cons? ==>
      var body := clauses.head.body;
      var end := ClauseFlow(p, body, env).end;
      && SettlesClause(p, body, env)
      && (end.Leave? || (!LeavesSwitch(body) && (end.Exit? || SettlesThrough(p, clauses.tail, env))))
  }

  /** A specialization all of whose code is decided and whose initializers take no lock and call nothing. */
  predicate SettledState(p: Program, t: Target)
    requires t.fn < |p|
  {
    var env := WithLocals(p[t.fn], t.env);
    && VisitParams(p, p[t.fn].params, env) == NOTHING
    && SettlesBody(p, p[t.fn].body, env) && !LeavesSwitch(p[t.fn].body)
  }

  // ----- Everything a summary names was taken

  /** The locks found, and up to `n` calls deep those of the callees that are followed and no barrier. */
  ghost predicate Takes(w: World, c: Cover, sum: Summary, n: nat, locks: set<nat>)
    decreases n, 0
  {
    && sum.locks <= locks
    && (n > 0 ==> forall u {:trigger TakesState(w, c, u, n - 1, locks)} ::
                     u in sum.callees && u in c.targets && u.fn < |w.program| && u.fn !in w.barriers ==>
                    TakesState(w, c, u, n - 1, locks))
  }

  ghost predicate TakesState(w: World, c: Cover, u: Target, n: nat, locks: set<nat>)
    requires u.fn < |w.program|
    decreases n, 1
  {
    Takes(w, c, Summarize(w.program, u), n, locks)
  }

  lemma {:induction false} TakesOn(w: World, c: Cover, sum: Summary, n: nat, locks: set<nat>, more: set<nat>)
    requires Takes(w, c, sum, n, locks) && locks <= more
    ensures Takes(w, c, sum, n, more)
    decreases n
  {
    if n > 0 {
      forall u | u in sum.callees && u in c.targets && u.fn < |w.program| && u.fn !in w.barriers
        ensures TakesState(w, c, u, n - 1, more)
      {
        assert TakesState(w, c, u, n - 1, locks);
        TakesOn(w, c, Summarize(w.program, u), n - 1, locks, more);
      }
    }
  }

  lemma TakesPlus(w: World, c: Cover, a: Summary, b: Summary, n: nat, locks: set<nat>)
    requires Takes(w, c, a, n, locks) && Takes(w, c, b, n, locks)
    ensures Takes(w, c, a.Plus(b), n, locks)
  {
    assert forall u <- a.Plus(b).callees :: u in a.callees || u in b.callees;
  }

  lemma TakesNothing(w: World, c: Cover, n: nat, locks: set<nat>)
    ensures Takes(w, c, NOTHING, n, locks)
  {
  }

  /** What was taken in two steps. */
  lemma TakesBoth(w: World, c: Cover, a: Summary, b: Summary, n: nat, locks: set<nat>, more: set<nat>)
    requires Takes(w, c, a, n, locks) && Takes(w, c, b, n, more) && locks <= more
    ensures Takes(w, c, a.Plus(b), n, more)
  {
    TakesOn(w, c, a, n, locks, more);
    TakesPlus(w, c, a, b, n, more);
  }

  lemma {:induction false} DecidedSilent(p: Program, e: Expr, env: Env)
    requires Evaluate(e, env).Some?
    ensures Visit(p, e, env) == NOTHING
  {
    assert NOTHING.Plus(NOTHING) == NOTHING;
    match e
    case Not(e1) => DecidedSilent(p, e1, env);
    case And(l, r) =>
      DecidedSilent(p, l, env);
      if Truth(Evaluate(l, env).value) { DecidedSilent(p, r, env); }
    case Or(l, r) =>
      DecidedSilent(p, l, env);
      if !Truth(Evaluate(l, env).value) { DecidedSilent(p, r, env); }
    case Nullish(l, r) =>
      DecidedSilent(p, l, env);
      if Absent(Evaluate(l, env).value) { DecidedSilent(p, r, env); }
    case Equal(l, r, _) => DecidedSilent(p, l, env); DecidedSilent(p, r, env);
    case Cond(c, t, f) =>
      DecidedSilent(p, c, env);
      DecidedSilent(p, if Truth(Evaluate(c, env).value) then t else f, env);
    case _ =>
  }

  // ----- Expressions

  ghost predicate Taken(w: World, c: Cover, sum: Summary, n: nat, r: Run) {
    r.out.Done? ==> Takes(w, c, sum, n, r.st.locks)
  }

  ghost predicate SettledTarget(w: World, t: Target) {
    t.fn < |w.program| && SettledState(w.program, t)
  }

  ghost predicate Exactable(w: World, c: Cover) {
    Covers(w, c) && Auditable(w.program) && forall t {:trigger SettledTarget(w, t)} :: t in c.targets ==>
      SettledTarget(w, t)
  }

  lemma {:induction false} EvalExact(fuel: nat, w: World, c: Cover, fr: Frame, e: Expr, st: State, n: nat)
    requires Exactable(w, c) && Ready(w, c, fr, e) && Kept(fr, c, st) && Settles(e, fr.env)
    ensures Taken(w, c, Visit(w.program, e, fr.env), n, Eval(fuel, w, e, st))
    decreases fuel, 2
  {
    if fuel > 0 {
      match e
      case Lit(_) =>
      case Name(_) =>
      case Prop(_, _, _) =>
      case Not(e1) => EvalExact(fuel - 1, w, c, fr, e1, st, n);
      case And(_, _) => LogicExact(fuel, w, c, fr, e, st, n);
      case Or(_, _) => LogicExact(fuel, w, c, fr, e, st, n);
      case Nullish(_, _) => LogicExact(fuel, w, c, fr, e, st, n);
      case Equal(_, _, _) => EqualExact(fuel, w, c, fr, e, st, n);
      case Cond(_, _, _) => CondExact(fuel, w, c, fr, e, st, n);
      case Record(fields) => FieldsExact(fuel - 1, w, c, fr, fields, map[], st, n);
      case Call(_, _) => CallExact(fuel, w, c, fr, e, st, n);
      case Assign(_, e1) =>
        SubWrites(Live(e1, fr.env), Live(e, fr.env), fr);
        EvalExact(fuel - 1, w, c, fr, e1, st, n);
      case AssignProp(_, _, e1) =>
        SubWrites(Live(e1, fr.env), Live(e, fr.env), fr);
        EvalExact(fuel - 1, w, c, fr, e1, st, n);
      case Lock(_, _) => LockExact(fuel, w, c, fr, e, st, n);
      case Opaque(parts) => AllExact(fuel - 1, w, c, fr, parts, st, n);
    }
  }

  lemma {:induction false} LogicExact(fuel: nat, w: World, c: Cover, fr: Frame, e: Expr, st: State, n: nat)
    requires fuel > 0 && (e.And? || e.Or? || e.Nullish?)
    requires Exactable(w, c) && Ready(w, c, fr, e) && Kept(fr, c, st) && Settles(e, fr.env)
    ensures Taken(w, c, Visit(w.program, e, fr.env), n, Eval(fuel, w, e, st))
    decreases fuel, 1
  {
    var v := Evaluate(e.l, fr.env).value;
    var skip := if e.And? then !Truth(v) else if e.Or? then Truth(v) else !Absent(v);
    DecidedPure(fuel - 1, w, fr, e.l, st);
    DecidedSilent(w.program, e.l, fr.env);
    if !skip {
      AllowedPlus(Visit(w.program, e.l, fr.env), Visit(w.program, e.r, fr.env), c, w.barriers);
      SubWrites(Live(e.r, fr.env), Live(e, fr.env), fr);
      EvalExact(fuel - 1, w, c, fr, e.r, st, n);
      assert NOTHING.Plus(Visit(w.program, e.r, fr.env)) == Visit(w.program, e.r, fr.env);
    }
  }

  lemma {:induction false} EqualExact(fuel: nat, w: World, c: Cover, fr: Frame, e: Expr, st: State, n: nat)
    requires fuel > 0 && e.Equal?
    requires Exactable(w, c) && Ready(w, c, fr, e) && Kept(fr, c, st) && Settles(e, fr.env)
    ensures Taken(w, c, Visit(w.program, e, fr.env), n, Eval(fuel, w, e, st))
    decreases fuel, 1
  {
    AllowedPlus(Visit(w.program, e.l, fr.env), Visit(w.program, e.r, fr.env), c, w.barriers);
    EvalExact(fuel - 1, w, c, fr, e.l, st, n);
    EvalSound(fuel - 1, w, c, fr, e.l, st);
    var a := Eval(fuel - 1, w, e.l, st);
    if a.out.Done? {
      EvalExact(fuel - 1, w, c, fr, e.r, a.st, n);
      EvalGrows(fuel - 1, w, c.props, e.r, a.st);
      var b := Eval(fuel - 1, w, e.r, a.st);
      if b.out.Done? {
        TakesBoth(w, c, Visit(w.program, e.l, fr.env), Visit(w.program, e.r, fr.env), n, a.st.locks, b.st.locks);
      }
    }
  }

  lemma {:induction false} CondExact(fuel: nat, w: World, c: Cover, fr: Frame, e: Expr, st: State, n: nat)
    requires fuel > 0 && e.Cond?
    requires Exactable(w, c) && Ready(w, c, fr, e) && Kept(fr, c, st) && Settles(e, fr.env)
    ensures Taken(w, c, Visit(w.program, e, fr.env), n, Eval(fuel, w, e, st))
    decreases fuel, 1
  {
    var v := Evaluate(e.c, fr.env).value;
    var taken := if Truth(v) then e.t else e.f;
    var sum := Visit(w.program, taken, fr.env);
    DecidedPure(fuel - 1, w, fr, e.c, st);
    DecidedSilent(w.program, e.c, fr.env);
    assert NOTHING.Plus(sum.Plus(NOTHING)) == sum == NOTHING.Plus(NOTHING.Plus(sum));
    SubWrites(Live(taken, fr.env), Live(e, fr.env), fr);
    EvalExact(fuel - 1, w, c, fr, taken, st, n);
  }

  lemma {:induction false} AllExact(fuel: nat, w: World, c: Cover, fr: Frame, es: List<Expr>, st: State, n: nat)
    requires Exactable(w, c) && ReadyAll(w, c, fr, es) && Kept(fr, c, st) && SettlesAll(es, fr.env)
    ensures var r := EvalAll(fuel, w, es, st);
            r.out.Done? ==> Takes(w, c, VisitAll(w.program, es, fr.env), n, r.st.locks)
    decreases fuel, 2
  {
    if fuel > 0 && es.Cons? {
      var first, rest := Visit(w.program, es.head, fr.env), VisitAll(w.program, es.tail, fr.env);
      AllowedPlus(first, rest, c, w.barriers);
      EvalExact(fuel - 1, w, c, fr, es.head, st, n);
      EvalSound(fuel - 1, w, c, fr, es.head, st);
      var a := Eval(fuel - 1, w, es.head, st);
      if a.out.Done? {
        AllExact(fuel - 1, w, c, fr, es.tail, a.st, n);
        EvalAllGrows(fuel - 1, w, c.props, es.tail, a.st);
        var b := EvalAll(fuel - 1, w, es.tail, a.st);
        if b.out.Done? {
          TakesBoth(w, c, first, rest, n, a.st.locks, b.st.locks);
        }
      }
    }
  }

  lemma {:induction false} FieldsExact(fuel: nat, w: World, c: Cover, fr: Frame, fs: List<Field>, acc: Object,
                                       st: State,
                                       n: nat)
    requires Exactable(w, c) && ReadyFields(w, c, fr, fs) && Kept(fr, c, st) && SettlesFields(fs, fr.env)
    ensures Taken(w, c, VisitFields(w.program, fs, fr.env), n, EvalFields(fuel, w, fs, acc, st))
    decreases fuel, 2
  {
    if fuel > 0 && fs.Cons? {
      var first, rest := Visit(w.program, fs.head.value, fr.env), VisitFields(w.program, fs.tail, fr.env);
      AllowedPlus(first, rest, c, w.barriers);
      EvalExact(fuel - 1, w, c, fr, fs.head.value, st, n);
      EvalSound(fuel - 1, w, c, fr, fs.head.value, st);
      var a := Eval(fuel - 1, w, fs.head.value, st);
      if a.out.Done? {
        var acc' := acc[fs.head.name := a.out.d];
        FieldsExact(fuel - 1, w, c, fr, fs.tail, acc', a.st, n);
        EvalFieldsGrows(fuel - 1, w, c.props, fs.tail, acc', a.st);
        var b := EvalFields(fuel - 1, w, fs.tail, acc', a.st);
        if b.out.Done? {
          TakesBoth(w, c, first, rest, n, a.st.locks, b.st.locks);
        }
      }
    }
  }

  lemma {:induction false} LockExact(fuel: nat, w: World, c: Cover, fr: Frame, e: Expr, st: State, n: nat)
    requires fuel > 0 && e.Lock?
    requires Exactable(w, c) && Ready(w, c, fr, e) && Kept(fr, c, st) && Settles(e, fr.env)
    ensures Taken(w, c, Visit(w.program, e, fr.env), n, Eval(fuel, w, e, st))
    decreases fuel, 1
  {
    var own, rest := Summary({e.site}, []), VisitAll(w.program, e.spans, fr.env);
    AllowedPlus(own, rest, c, w.barriers);
    AllExact(fuel - 1, w, c, fr, e.spans, st, n);
    var a := EvalAll(fuel - 1, w, e.spans, st);
    if a.out.Done? {
      TakesOn(w, c, rest, n, a.st.locks, a.st.locks + {e.site});
      TakesPlus(w, c, own, rest, n, a.st.locks + {e.site});
    }
  }

  // ----- Calls

  lemma {:induction false} CallExact(fuel: nat, w: World, c: Cover, fr: Frame, e: Expr, st: State, n: nat)
    requires fuel > 0 && e.Call?
    requires Exactable(w, c) && Ready(w, c, fr, e) && Kept(fr, c, st) && Settles(e, fr.env)
    ensures Taken(w, c, Visit(w.program, e, fr.env), n, Eval(fuel, w, e, st))
    decreases fuel, 1
  {
    var own := if e.fn < |w.program| then Summary({}, [Target(e.fn, CalleeEnv(w.program[e.fn].params, e.args, fr.env))])
      else NOTHING;
    var rest := VisitAll(w.program, e.args, fr.env);
    AllowedPlus(own, rest, c, w.barriers);
    AllExact(fuel - 1, w, c, fr, e.args, st, n);
    EvalAllSound(fuel - 1, w, c, fr, e.args, st);
    var a := EvalAll(fuel - 1, w, e.args, st);
    if a.out.Done? {
      InvokeGrows(fuel - 1, w, c.props, e.fn, a.ds, a.st);
      var r := Invoke(fuel - 1, w, e.fn, a.ds, a.st);
      if r.out.Done? {
        if e.fn < |w.program| {
          InvokeExact(fuel - 1, w, c, fr, e.fn, e.args, a.ds, a.st, n);
        } else {
          TakesNothing(w, c, n, r.st.locks);
        }
        TakesOn(w, c, rest, n, a.st.locks, r.st.locks);
        TakesPlus(w, c, own, rest, n, r.st.locks);
      }
    }
  }

  lemma {:induction false} InvokeExact(fuel: nat, w: World, c: Cover, fr: Frame, fn: nat, args: List<Expr>,
                                       ds: List<Data>, st: State, n: nat)
    requires Exactable(w, c) && Kept(fr, c, st) && fn < |w.program|
    requires WfExprs(args) && ArgsKnown(args, fr.env, ds, st.heap, c.props)
    ensures var r := Invoke(fuel, w, fn, ds, st);
            Taken(w, c, Summary({}, [Target(fn, CalleeEnv(w.program[fn].params, args, fr.env))]), n, r)
    decreases fuel, 0
  {
    var f := w.program[fn];
    var t := Target(fn, CalleeEnv(f.params, args, fr.env));
    if fuel > 0 && n > 0 && t in c.targets && fn !in w.barriers {
      assert f in w.program && CoversState(w, c, t);
      TargetArgs(f, args, fr.env, ds, st.heap, c.props);
      BodyExact(fuel - 1, w, c, t, ds, st, n - 1);
    }
  }

  ghost predicate BodyEnded(w: World, c: Cover, t: Target, n: nat, r: Run)
    requires t.fn < |w.program|
  {
    && !r.out.Broke? && !r.out.Continued?
    && (r.out.Done? || r.out.Returned? ==> Takes(w, c, Summarize(w.program, t), n, r.st.locks))
  }

  /** A covered specialization that is decided, run on fitting values to its end, takes all that its summary names. */
  lemma {:induction false} BodyExact(fuel: nat, w: World, c: Cover, t: Target, ds: List<Data>, st: State, n: nat)
    requires Exactable(w, c) && t in c.targets && st.locks <= c.locks
    requires ParamsOk(w.program[t.fn].params, ds, WithLocals(w.program[t.fn], t.env), st.heap)
    ensures BodyEnded(w, c, t, n, RunBody(fuel, w, w.program[t.fn], ds, st))
    decreases fuel, 1
  {
    var r := RunBody(fuel, w, w.program[t.fn], ds, st);
    if r.out.Threw? || r.out.Cut? {
      StoppedEnds(w, c, t, n, r);
    } else {
      BodyRuns(fuel, w, c, t, ds, st, n);
    }
  }

  lemma {:induction false} BodyRuns(fuel: nat, w: World, c: Cover, t: Target, ds: List<Data>, st: State, n: nat)
    requires Exactable(w, c) && t in c.targets && st.locks <= c.locks
    requires ParamsOk(w.program[t.fn].params, ds, WithLocals(w.program[t.fn], t.env), st.heap)
    requires var r := RunBody(fuel, w, w.program[t.fn], ds, st); !r.out.Threw? && !r.out.Cut?
    ensures BodyEnded(w, c, t, n, RunBody(fuel, w, w.program[t.fn], ds, st))
    decreases fuel, 0
  {
    var bound := RunFromBound(fuel, w, c, t, ds, st);
    FromBound(fuel - 1, w, c, t, bound, n, RunBody(fuel, w, w.program[t.fn], ds, st));
  }

  lemma StoppedEnds(w: World, c: Cover, t: Target, n: nat, r: Run)
    requires t.fn < |w.program| && (r.out.Threw? || r.out.Cut?)
    ensures BodyEnded(w, c, t, n, r)
  {
  }

  /** The parameters of a specialization are bound, and its body may run. */
  ghost predicate Bound(w: World, c: Cover, t: Target, st: State)
    requires t.fn < |w.program|
  {
    var f, fr := w.program[t.fn], FrameOf(w.program[t.fn], t.env);
    && Kept(fr, c, st) && RunnableAll(fr, c, f.body)
    && Allowed(Statements(w.program, f.body, fr.env).sum, c, w.barriers)
  }

  lemma {:induction false} FromBound(fuel: nat, w: World, c: Cover, t: Target, st: State, n: nat, r: Run)
    requires Exactable(w, c) && t in c.targets && Bound(w, c, t, st)
    requires r == ExecAll(fuel, w, w.program[t.fn].body, st)
    ensures BodyEnded(w, c, t, n, r)
    decreases fuel, 1
  {
    var f := w.program[t.fn];
    assert SettledTarget(w, t);
    BodyRunExact(fuel, w, c, FrameOf(f, t.env), f.body, st, n);
    NoBreakAll(fuel, w, f.body, st);
    BodyIsAll(w.program, t);
  }

  /** A run that neither throws nor is cut off is that of the body, with the parameters bound. */
  lemma RunFromBound(fuel: nat, w: World, c: Cover, t: Target, ds: List<Data>, st: State) returns (bound: State)
    requires Covers(w, c) && Auditable(w.program) && t in c.targets && st.locks <= c.locks
    requires ParamsOk(w.program[t.fn].params, ds, WithLocals(w.program[t.fn], t.env), st.heap)
    requires var r := RunBody(fuel, w, w.program[t.fn], ds, st); !r.out.Threw? && !r.out.Cut?
    ensures fuel > 0 && Bound(w, c, t, bound)
    ensures RunBody(fuel, w, w.program[t.fn], ds, st) == ExecAll(fuel - 1, w, w.program[t.fn].body, bound)
  {
    bound := Bind(fuel - 1, w, w.program[t.fn].params, ds, st.(store := map[])).st;
    BodyReady(fuel, w, c, t, ds, st);
  }

  lemma BodyIsAll(p: Program, t: Target)
    requires t.fn < |p| && SettledState(p, t)
    ensures Summarize(p, t) == Statements(p, p[t.fn].body, WithLocals(p[t.fn], t.env)).sum
  {
    var sum := Statements(p, p[t.fn].body, WithLocals(p[t.fn], t.env)).sum;
    assert NOTHING.Plus(sum) == sum;
  }

  /** Once its parameters are bound, a covered specialization is ready to run. */
  lemma BodyReady(fuel: nat, w: World, c: Cover, t: Target, ds: List<Data>, st: State)
    requires fuel > 0 && Covers(w, c) && Auditable(w.program) && t in c.targets && st.locks <= c.locks
    requires ParamsOk(w.program[t.fn].params, ds, WithLocals(w.program[t.fn], t.env), st.heap)
    ensures Bound(w, c, t, Bind(fuel - 1, w, w.program[t.fn].params, ds, st.(store := map[])).st)
  {
    var f := w.program[t.fn];
    assert f in w.program && CoversState(w, c, t);
    var fr := FrameOf(f, t.env);
    AllowedPlus(VisitParams(w.program, f.params, fr.env), Statements(w.program, f.body, fr.env).sum, c, w.barriers);
    ParamsNotConst(f, t.env);
    ReliedMembers(f, t.env, c.props);
    assert FunctionSets(f) <= ProgramSets(w.program);
    BindSound(fuel - 1, w, c, fr, f.params, ds, st.(store := map[]));
    forall b | b in BodyBinders(f.body)
      ensures BinderOk(b, fr)
    {
      BindersHold(f, t.env, b);
    }
    forall k | k in LiveBody(f.body, fr.env)
      ensures WriteOk(k, fr)
    {
      WritesHold(f, t.env, k);
    }
  }

  // ----- Statements

  /** A run that gets to the end or returns took what the walk found, and one that returns was said to exit. */
  ghost predicate Ended(w: World, c: Cover, flow: Flow, n: nat, r: Run) {
    && !r.out.Continued?
    && (r.out.Done? || r.out.Returned? ==> Takes(w, c, flow.sum, n, r.st.locks))
    && (r.out.Returned? ==> flow.exits)
  }

  lemma {:induction false} ExecExact(fuel: nat, w: World, c: Cover, fr: Frame, s: Stmt, st: State, n: nat)
    requires Exactable(w, c) && Runnable(fr, c, s) && Kept(fr, c, st) && SettlesStmt(w.program, s, fr.env)
    requires Allowed(Statement(w.program, s, fr.env).sum, c, w.barriers)
    ensures Ended(w, c, Statement(w.program, s, fr.env), n, Exec(fuel, w, s, st))
    decreases fuel, 2
  {
    if fuel > 0 {
      match s
      case ExprStmt(e) => LeafExact(fuel, w, c, fr, s, e, st, n);
      case Declare(_, _, init) => LeafExact(fuel, w, c, fr, s, init, st, n);
      case Return(e) => LeafExact(fuel, w, c, fr, s, e, st, n);
      case Throw(e) => LeafExact(fuel, w, c, fr, s, e, st, n);
      case Unpack(fixed, y, picks) =>
        if y in st.store && !Missing(st.store[y].d) {
          PickAllEnds(w, fixed, st.store[y].d, picks, st);
        }
      case Block(body) =>
        EnterKeeps(fr, c, Declared(body), st);
        BodyRunExact(fuel - 1, w, c, fr, body, Enter(Declared(body), st), n);
      case If(_, _, _) => IfExact(fuel, w, c, fr, s, st, n);
      case Switch(_, _) => SwitchExact(fuel, w, c, fr, s, st, n);
      case _ =>
    }
  }

  lemma {:induction false} LeafExact(fuel: nat, w: World, c: Cover, fr: Frame, s: Stmt, e: Expr, st: State, n: nat)
    requires s in {ExprStmt(e), Return(e), Throw(e)} || (s.Declare? && s.init == e)
    requires fuel > 0 && Exactable(w, c) && Runnable(fr, c, s) && Kept(fr, c, st) && Settles(e, fr.env)
    requires Allowed(Statement(w.program, s, fr.env).sum, c, w.barriers)
    ensures Ended(w, c, Statement(w.program, s, fr.env), n, Exec(fuel, w, s, st))
    decreases fuel, 0
  {
    assert Statement(w.program, s, fr.env).sum == Visit(w.program, e, fr.env);
    SubWrites(Live(e, fr.env), LiveStmt(s, fr.env), fr);
    EvalExact(fuel - 1, w, c, fr, e, st, n);
  }

  lemma {:induction false} IfExact(fuel: nat, w: World, c: Cover, fr: Frame, s: Stmt, st: State, n: nat)
    requires fuel > 0 && s.If?
    requires Exactable(w, c) && Runnable(fr, c, s) && Kept(fr, c, st) && SettlesStmt(w.program, s, fr.env)
    requires Allowed(Statement(w.program, s, fr.env).sum, c, w.barriers)
    ensures Ended(w, c, Statement(w.program, s, fr.env), n, Exec(fuel, w, s, st))
    decreases fuel, 1
  {
    var taken := if Truth(Evaluate(s.c, fr.env).value) then s.t else s.f;
    DecidedPure(fuel - 1, w, fr, s.c, st);
    BranchTaken(w, c, fr, s);
    ExecExact(fuel - 1, w, c, fr, taken, st, n);
  }

  /** A decided condition leaves the branch that is taken. */
  lemma BranchTaken(w: World, c: Cover, fr: Frame, s: Stmt)
    requires s.If? && Runnable(fr, c, s) && Evaluate(s.c, fr.env).Some?
    ensures var taken := if Truth(Evaluate(s.c, fr.env).value) then s.t else s.f;
            && Statement(w.program, s, fr.env) == Statement(w.program, taken, fr.env)
            && Runnable(fr, c, taken)
  {
    var taken := if Truth(Evaluate(s.c, fr.env).value) then s.t else s.f;
    var flow := Statement(w.program, taken, fr.env);
    DecidedSilent(w.program, s.c, fr.env);
    assert NOTHING.Plus(flow.sum) == flow.sum;
    SubBinders(Binders(s.t), Binders(s.f), fr);
    SubWrites(LiveStmt(taken, fr.env), LiveStmt(s, fr.env), fr);
  }

  lemma {:induction false} BodyRunExact(fuel: nat, w: World, c: Cover, fr: Frame, ss: List<Stmt>, st: State, n: nat)
    requires Exactable(w, c) && RunnableAll(fr, c, ss) && Kept(fr, c, st) && SettlesBody(w.program, ss, fr.env)
    requires Allowed(Statements(w.program, ss, fr.env).sum, c, w.barriers)
    ensures Ended(w, c, Statements(w.program, ss, fr.env), n, ExecAll(fuel, w, ss, st))
    decreases fuel, 0
  {
    if fuel > 0 && ss.Cons? {
      SubBinders(Binders(ss.head), BodyBinders(ss.tail), fr);
      var first, rest := Statement(w.program, ss.head, fr.env), Statements(w.program, ss.tail, fr.env);
      if !first.exits {
        AllowedPlus(first.sum, rest.sum, c, w.barriers);
      }
      SubWrites(LiveStmt(ss.head, fr.env), LiveBody(ss, fr.env), fr);
      ExecExact(fuel - 1, w, c, fr, ss.head, st, n);
      ExecSound(fuel - 1, w, c, fr, ss.head, st);
      var a := Exec(fuel - 1, w, ss.head, st);
      if a.out.Done? {
        SubWrites(LiveBody(ss.tail, fr.env), LiveBody(ss, fr.env), fr);
        BodyRunExact(fuel - 1, w, c, fr, ss.tail, a.st, n);
        ExecAllGrows(fuel - 1, w, c.props, ss.tail, a.st);
        var b := ExecAll(fuel - 1, w, ss.tail, a.st);
        if b.out.Done? || b.out.Returned? {
          TakesBoth(w, c, first.sum, rest.sum, n, a.st.locks, b.st.locks);
        }
      }
    }
  }

  // ----- Switches

  lemma {:induction false} SwitchExact(fuel: nat, w: World, c: Cover, fr: Frame, s: Stmt, st: State, n: nat)
    requires fuel > 0 && s.Switch?
    requires Exactable(w, c) && Runnable(fr, c, s) && Kept(fr, c, st) && SettlesStmt(w.program, s, fr.env)
    requires Allowed(Statement(w.program, s, fr.env).sum, c, w.barriers)
    ensures Ended(w, c, Statement(w.program, s, fr.env), n, Exec(fuel, w, s, st))
    decreases fuel, 1
  {
    var v := Evaluate(s.d, fr.env).value;
    SwitchReady(w, c, fr, s);
    SwitchIs(w.program, s, fr.env);
    DecidedPure(fuel - 1, w, fr, s.d, st);
    if Eval(fuel - 1, w, s.d, st).out.Done? {
      ClausesExact(fuel - 1, w, c, fr, s.clauses, v, st, n);
    }
  }

  lemma SwitchIs(p: Program, s: Stmt, env: Env)
    requires s.Switch? && Evaluate(s.d, env).Some?
    ensures Statement(p, s, env) == WalkFrom(p, s.clauses, Evaluate(s.d, env).value, env)
  {
    var inner := WalkFrom(p, s.clauses, Evaluate(s.d, env).value, env);
    DecidedSilent(p, s.d, env);
    assert NOTHING.Plus(inner.sum) == inner.sum;
  }

  lemma {:induction false} ClausesExact(fuel: nat, w: World, c: Cover, fr: Frame, clauses: List<Clause>, v: Value,
                                        st: State, n: nat)
    requires Exactable(w, c) && RunnableClauses(fr, c, clauses) && Kept(fr, c, st) && Labelled(clauses, fr.env)
    requires SettlesThrough(w.program, Start(clauses, clauses, v, fr.env), fr.env)
    requires Allowed(WalkFrom(w.program, clauses, v, fr.env).sum, c, w.barriers)
    ensures Ended(w, c, WalkFrom(w.program, clauses, v, fr.env), n, ExecSwitch(fuel, w, Prim(v), clauses, st))
    decreases fuel, 1
  {
    var inside := Enter(ClausesDeclared(clauses), st);
    EnterKeeps(fr, c, ClausesDeclared(clauses), st);
    FindDecided(fuel, w, fr, v, clauses, clauses, inside);
    var from := FindClause(fuel, w, Prim(v), clauses, clauses, inside);
    if from.out.Done? {
      SuffixRunnable(fr, c, from.rest, clauses);
      ThroughExact(fuel, w, c, fr, from.rest, inside, n);
    }
  }

  /** From clause to clause until one leaves or returns. */
  lemma {:induction false} ThroughExact(fuel: nat, w: World, c: Cover, fr: Frame, clauses: List<Clause>, st: State,
                                        n: nat)
    requires Exactable(w, c) && RunnableClauses(fr, c, clauses) && Kept(fr, c, st)
    requires SettlesThrough(w.program, clauses, fr.env)
    requires Allowed(WalkThrough(w.program, clauses, false, fr.env).sum, c, w.barriers)
    ensures var r, flow := ExecClauses(fuel, w, clauses, st), WalkThrough(w.program, clauses, false, fr.env);
            && !r.out.Continued?
            && (r.out.Done? || r.out.Broke? || r.out.Returned? ==> Takes(w, c, flow.sum, n, r.st.locks))
            && (r.out.Returned? ==> flow.exits)
    decreases fuel, 0
  {
    if fuel > 0 && clauses.Cons? {
      var body, rest := clauses.head.body, clauses.tail;
      var flow, others := ClauseFlow(w.program, body, fr.env), WalkThrough(w.program, rest, false, fr.env);
      ClauseRunnable(fr, c, clauses);
      if flow.end.Next? {
        AllowedPlus(flow.sum, others.sum, c, w.barriers);
      }
      ClauseExact(fuel - 1, w, c, fr, body, st, n);
      ClauseFlowSound(fuel - 1, w, c, fr, body, st);
      var a := ExecAll(fuel - 1, w, body, st);
      if a.out.Done? {
        ThroughExact(fuel - 1, w, c, fr, rest, a.st, n);
        ExecClausesGrows(fuel - 1, w, c.props, rest, a.st);
        var b := ExecClauses(fuel - 1, w, rest, a.st);
        if b.out.Done? || b.out.Broke? || b.out.Returned? {
          TakesBoth(w, c, flow.sum, others.sum, n, a.st.locks, b.st.locks);
        }
      }
    }
  }

  /** One clause: it returns, breaks or falls through as the walk says. */
  lemma {:induction false} ClauseExact(fuel: nat, w: World, c: Cover, fr: Frame, ss: List<Stmt>, st: State, n: nat)
    requires Exactable(w, c) && RunnableAll(fr, c, ss) && Kept(fr, c, st) && SettlesClause(w.program, ss, fr.env)
    requires Allowed(ClauseFlow(w.program, ss, fr.env).sum, c, w.barriers)
    ensures ClauseEnded(w, c, ClauseFlow(w.program, ss, fr.env), n, ExecAll(fuel, w, ss, st))
    decreases fuel, 0
  {
    if fuel > 1 && ss.Cons? && !ss.head.Break? {
      SubBinders(Binders(ss.head), BodyBinders(ss.tail), fr);
      SubWrites(LiveStmt(ss.head, fr.env), LiveBody(ss, fr.env), fr);
      SubWrites(LiveBody(ss.tail, fr.env), LiveBody(ss, fr.env), fr);
      var first, rest := FirstFlow(w.program, ss.head, fr.env), ClauseFlow(w.program, ss.tail, fr.env);
      if first.end.Next? {
        AllowedPlus(first.sum, rest.sum, c, w.barriers);
      }
      FirstExact(fuel, w, c, fr, ss.head, st, n);
      var a := Exec(fuel - 1, w, ss.head, st);
      if a.out.Done? {
        ClauseExact(fuel - 1, w, c, fr, ss.tail, a.st, n);
        ExecAllGrows(fuel - 1, w, c.props, ss.tail, a.st);
        var b := ExecAll(fuel - 1, w, ss.tail, a.st);
        if b.out.Done? || b.out.Broke? || b.out.Returned? {
          TakesBoth(w, c, first.sum, rest.sum, n, a.st.locks, b.st.locks);
        }
      }
    }
  }

  ghost predicate ClauseEnded(w: World, c: Cover, flow: ClauseEnd, n: nat, r: Run) {
    && !r.out.Continued?
    && (r.out.Done? || r.out.Broke? || r.out.Returned? ==> Takes(w, c, flow.sum, n, r.st.locks))
    && (r.out.Returned? ==> flow.end.Exit?) && (r.out.Broke? ==> flow.end.Leave?)
  }

  lemma {:induction false} FirstExact(fuel: nat, w: World, c: Cover, fr: Frame, s: Stmt, st: State, n: nat)
    requires fuel > 1 && Exactable(w, c) && Runnable(fr, c, s) && Kept(fr, c, st)
    requires if s.Block? then SettlesClause(w.program, s.body, fr.env)
             else SettlesStmt(w.program, s, fr.env) && !Leaves(s)
    requires Allowed(FirstFlow(w.program, s, fr.env).sum, c, w.barriers)
    ensures ClauseEnded(w, c, FirstFlow(w.program, s, fr.env), n, Exec(fuel - 1, w, s, st))
    ensures Kept(fr, c, Exec(fuel - 1, w, s, st).st)
    ensures Exec(fuel - 1, w, s, st).out.Done? ==> FirstFlow(w.program, s, fr.env).end.Next?
    decreases fuel - 1, 3
  {
    if s.Block? {
      var inside := Enter(Declared(s.body), st);
      EnterKeeps(fr, c, Declared(s.body), st);
      ClauseExact(fuel - 2, w, c, fr, s.body, inside, n);
      ScopeFlowSound(fuel - 2, w, c, fr, s.body, st);
    } else {
      ExecExact(fuel - 1, w, c, fr, s, st, n);
      ExecSound(fuel - 1, w, c, fr, s, st);
      NoBreak(fuel - 1, w, s, st);
    }
  }

  // ----- What the audit knows of values

  /** Literals, and names and properties that are pinned, combined. */
  predicate Grounded(e: Expr, env: Env) {
    match e
    case Lit(_) => true
    case Name(x) => Var(x) in env
    case Prop(x, p, _) => Member(x, p) in env
    case Not(e1) => Grounded(e1, env)
    case And(l, r) => Grounded(l, env) && Grounded(r, env)
    case Or(l, r) => Grounded(l, env) && Grounded(r, env)
    case Nullish(l, r) => Grounded(l, env) && Grounded(r, env)
    case Equal(l, r, _) => Grounded(l, env) && Grounded(r, env)
    case Cond(c, t, f) => Grounded(c, env) && Grounded(t, env) && Grounded(f, env)
    case _ => false
  }

  /** What is made of pinned parts is known, and is the value of every run that fits. */
  lemma {:induction false} GroundedKnown(e: Expr, env: Env)
    requires Grounded(e, env)
    ensures Evaluate(e, env).Some?
  {
    match e
    case Lit(_) =>
    case Name(_) =>
    case Prop(_, _, _) =>
    case Not(e1) => GroundedKnown(e1, env);
    case And(l, r) => GroundedKnown(l, env); GroundedKnown(r, env);
    case Or(l, r) => GroundedKnown(l, env); GroundedKnown(r, env);
    case Nullish(l, r) => GroundedKnown(l, env); GroundedKnown(r, env);
    case Equal(l, r, _) => GroundedKnown(l, env); GroundedKnown(r, env);
    case Cond(c, t, f) => GroundedKnown(c, env); GroundedKnown(t, env); GroundedKnown(f, env);
  }

  /** An operand that a known value skips need not be known, nor the property of an absent object behind `?.`. */
  lemma SkippedUnknown(l: Expr, r: Expr, x: string, p: string, env: Env)
    requires Evaluate(l, env).Some?
    ensures !Truth(Evaluate(l, env).value) ==> Evaluate(And(l, r), env) == Evaluate(l, env)
    ensures Truth(Evaluate(l, env).value) ==> Evaluate(Or(l, r), env) == Evaluate(l, env)
    ensures !Absent(Evaluate(l, env).value) ==> Evaluate(Nullish(l, r), env) == Evaluate(l, env)
    ensures Var(x) in env && env[Var(x)] in {Undefined, Null} && Member(x, p) !in env ==>
              Evaluate(Prop(x, p, true), env) == Some(Undefined)
    ensures Member(x, p) !in env ==> Evaluate(Prop(x, p, false), env) == None
  {
  }

  /** Nothing is reported from behind a branch of which both sides exit, decided or not, nor behind an exit at all. */
  lemma NothingBehindExits(p: Program, c: Expr, t: Stmt, f: Stmt, rest: List<Stmt>, env: Env)
    ensures Statement(p, t, env).exits && Statement(p, f, env).exits ==>
              Statements(p, Cons(If(c, t, f), rest), env) == Statement(p, If(c, t, f), env)
    ensures Statement(p, t, env).exits ==> Statements(p, Cons(t, rest), env) == Statement(p, t, env)
    ensures Statement(p, Return(c), env).exits && Statement(p, Throw(c), env).exits
  {
  }

  /** The statement is there, outside any loop or switch in it. */
  ghost predicate Occurs(j: Stmt, s: Stmt) {
    j == s ||
    match s
    case Block(body) => OccursIn(j, body)
    case If(_, t, f) => Occurs(j, t) || Occurs(j, f)
    case Try(body, handler, finalizer) => OccursIn(j, body) || OccursIn(j, handler) || OccursIn(j, finalizer)
    case _ => false
  }

  ghost predicate OccursIn(j: Stmt, ss: List<Stmt>) {
    ss.Cons? && (Occurs(j, ss.head) || OccursIn(j, ss.tail))
  }

  /** A switch is left from a clause exactly if a break or continue is there that no loop or switch in it owns. */
  lemma {:induction false} LeavesExactly(s: Stmt)
    ensures Leaves(s) <==> Occurs(Break, s) || Occurs(Continue, s)
  {
    match s
    case Block(body) => LeavesExactlyIn(body);
    case If(_, t, f) => LeavesExactly(t); LeavesExactly(f);
    case Try(body, handler, finalizer) =>
      LeavesExactlyIn(body); LeavesExactlyIn(handler); LeavesExactlyIn(finalizer);
    case _ =>
  }

  lemma {:induction false} LeavesExactlyIn(ss: List<Stmt>)
    ensures LeavesSwitch(ss) <==> OccursIn(Break, ss) || OccursIn(Continue, ss)
  {
    if ss.Cons? {
      LeavesExactly(ss.head);
      LeavesExactlyIn(ss.tail);
    }
  }

  // ----- What a call pins

  function ParamAt(params: List<Param>, i: nat): Option<Param> {
    if params.Nil? then None else if i == 0 then Some(params.head) else ParamAt(params.tail, i - 1)
  }

  function ArgAt(args: List<Expr>, i: nat): Option<Expr> {
    if args.Nil? then None else if i == 0 then Some(args.head) else ArgAt(args.tail, i - 1)
  }

  /** What an argument is known to be: undefined if it is not given. */
  function PassedValue(arg: Option<Expr>, env: Env): Option<Value> {
    match arg
    case None => Some(Undefined)
    case Some(e) => Evaluate(e, env)
  }

  /** The value of a parameter or element, with its initializer in place of a known undefined. */
  function WithInit(known: Option<Value>, init: Option<Expr>): Option<Value> {
    if known == Some(Undefined) && init.Some? then Evaluate(init.value, map[]) else known
  }

  ghost predicate Pinned(pins: Env, k: Key, v: Option<Value>) {
    if v.Some? then k in pins && pins[k] == v.value else k !in pins
  }

  lemma NamesSplit(params: List<Param>)
    requires params.Cons? && Distinct(ParamNames(params))
    ensures Distinct(ParamNames(params.tail)) && Distinct(NamesOf(params.head))
    ensures forall x <- NamesOf(params.head) :: x !in ParamNames(params.tail)
  {
    var names, own := ParamNames(params), NamesOf(params.head);
    assert own == names[..|own|] && ParamNames(params.tail) == names[|own|..];
  }

  /** The pins of one call, parameter by parameter: none of another parameter gets in the way. */
  lemma {:induction false} CalleePins(params: List<Param>, args: List<Expr>, env: Env, i: nat, k: Key)
    requires WfExprs(args) && Distinct(ParamNames(params)) && ParamAt(params, i).Some?
    requires k.x in NamesOf(ParamAt(params, i).value)
    ensures Pinned(CalleeEnv(params, args, env), k, OwnPin(ParamAt(params, i).value, ArgAt(args, i), env, k))
    decreases params
  {
    var arg, args' := if args.Nil? then None else Some(args.head), if args.Nil? then Nil else args.tail;
    var own, others := ParamPins(params.head, arg, env), CalleeEnv(params.tail, args', env);
    NamesSplit(params);
    ParamPinNames(params.head, arg, env);
    CalleePinNames(params.tail, args', env);
    assert CalleeEnv(params, args, env) == own + others;
    if i == 0 {
      assert k !in others;
    } else {
      NamedAt(params.tail, i - 1);
      assert k !in own;
      assert ArgAt(args', i - 1) == ArgAt(args, i);
      CalleePins(params.tail, args', env, i - 1, k);
    }
  }

  function OwnPin(param: Param, arg: Option<Expr>, env: Env, k: Key): Option<Value> {
    var own := ParamPins(param, arg, env);
    if k in own then Some(own[k]) else None
  }

  lemma {:induction false} NamedAt(params: List<Param>, i: nat)
    requires ParamAt(params, i).Some?
    ensures forall x <- NamesOf(ParamAt(params, i).value) :: x in ParamNames(params)
  {
    if i > 0 {
      NamedAt(params.tail, i - 1);
    }
  }

  /**
   * A plain parameter is pinned exactly if its argument is known, or is missing and its initializer is known; a
       property
   * of it exactly if the argument is a name that has it pinned or a literal whose field is known.
   */
  lemma PlainPinned(params: List<Param>, args: List<Expr>, env: Env, i: nat, p: string)
    requires WfExprs(args) && Distinct(ParamNames(params)) && ParamAt(params, i).Some?
             && ParamAt(params, i).value.Plain?
    ensures var Plain(x, init) := ParamAt(params, i).value;
            var pins, arg := CalleeEnv(params, args, env), ArgAt(args, i);
            && Pinned(pins, Var(x), WithInit(PassedValue(arg, env), init))
            && Pinned(pins, Member(x, p),
                      if arg.None? then None
                      else if arg.value.Name? then
                        if Member(arg.value.x, p) in env then Some(env[Member(arg.value.x, p)]) else None
                      else if arg.value.Record? then
                        var field := FindField(arg.value.fields, p);
                        if field.Some? then Evaluate(field.value, env) else None
                      else None)
  {
    var param, arg := ParamAt(params, i).value, ArgAt(args, i);
    CalleePins(params, args, env, i, Var(param.x));
    CalleePins(params, args, env, i, Member(param.x, p));
    WfArgAt(args, i);
    if arg.Some? && arg.value.Record? {
      FieldPinsExactly(param.x, arg.value.fields, env, p);
    }
  }

  lemma {:induction false} WfArgAt(args: List<Expr>, i: nat)
    requires WfExprs(args)
    ensures ArgAt(args, i).Some? ==> WfExpr(ArgAt(args, i).value)
  {
    if args.Cons? && i > 0 {
      WfArgAt(args.tail, i - 1);
    }
  }

  lemma {:induction false} FieldPinsExactly(x: string, fs: List<Field>, env: Env, p: string)
    requires WfFields(fs)
    ensures Var(x) !in FieldPins(x, fs, env)
    ensures var field := FindField(fs, p);
            Pinned(FieldPins(x, fs, env), Member(x, p), if field.Some? then Evaluate(field.value, env) else None)
  {
    if fs.Cons? {
      FieldPinsExactly(x, fs.tail, env, p);
      FindFieldNamed(fs.tail, p);
    }
  }

  /** What an element of a pattern is known to get. */
  function ElemValue(key: string, arg: Option<Expr>, empty: bool, env: Env): Option<Value> {
    match arg
    case None => Some(Undefined)
    case Some(Record(fields)) =>
      var field := FindField(fields, key);
      if field.Some? then Evaluate(field.value, env) else Some(Undefined)
    case Some(e) => if !empty && Evaluate(e, env) == Some(Undefined) then Some(Undefined) else None
  }

  function ElemAt(elems: List<Elem>, j: nat): Option<Elem> {
    if elems.Nil? then None else if j == 0 then Some(elems.head) else ElemAt(elems.tail, j - 1)
  }

  lemma {:induction false} ElemPinsExactly(elems: List<Elem>, arg: Option<Expr>, empty: bool, env: Env, j: nat)
    requires Distinct(ElemNames(elems)) && ElemAt(elems, j).Some?
    ensures var elem := ElemAt(elems, j).value;
            && elem.x in ElemNames(elems)
            && Pinned(ElemPins(elems, arg, empty, env), Var(elem.x),
                      WithInit(ElemValue(elem.key, arg, empty, env), elem.init))
  {
    var names, rest := ElemNames(elems), ElemPins(elems.tail, arg, empty, env);
    assert names[0] == elems.head.x && names[1..] == ElemNames(elems.tail);
    ElemPinNames(elems.tail, arg, empty, env);
    if j == 0 {
      assert Var(elems.head.x) !in rest;
      assert ElemKnown(elems.head, arg, empty, env) == ElemValue(elems.head.key, arg, empty, env);
    } else {
      ElemPinsExactly(elems.tail, arg, empty, env, j - 1);
      assert Var(elems.head.x) != Var(ElemAt(elems, j).value.x);
    }
  }

  /** An element of a pattern is pinned exactly if its field of a literal argument, or its initializer, is known. */
  lemma PatternPinned(params: List<Param>, args: List<Expr>, env: Env, i: nat, j: nat)
    requires WfExprs(args) && Distinct(ParamNames(params)) && ParamAt(params, i).Some?
    requires var param := ParamAt(params, i).value;
             param.Pattern? && Distinct(ElemNames(param.elems)) && ElemAt(param.elems, j).Some?
    ensures var param := ParamAt(params, i).value;
            var elem := ElemAt(param.elems, j).value;
            Pinned(CalleeEnv(params, args, env), Var(elem.x),
                   WithInit(ElemValue(elem.key, ArgAt(args, i), param.empty, env), elem.init))
  {
    var param := ParamAt(params, i).value;
    var elem := ElemAt(param.elems, j).value;
    ElemPinsExactly(param.elems, ArgAt(args, i), param.empty, env, j);
    CalleePins(params, args, env, i, Var(elem.x));
  }

  // ----- What the frame pins beyond the call

  /** Neither the key nor, for a property, its name is assigned. */
  ghost predicate Unwritten(k: Key, writes: seq<Writing>) {
    forall w <- writes :: w.key != k && w.key != Var(k.x)
  }

  lemma UnassignedExactly(base: Env, writes: seq<Writing>, k: Key)
    ensures Pinned(Unassigned(base, writes), k, if k in base && Unwritten(k, writes) then Some(base[k]) else None)
  {
    assert Unwritten(k, writes) ==> !Assigned(k, writes);
    if !Unwritten(k, writes) {
      var w :| w in writes && !(w.key != k && w.key != Var(k.x));
      var i :| 0 <= i < |writes| && writes[i] == w;
      assert Assigned(k, writes);
    }
  }

  /** A pin of the call that nothing assigns is in the frame. */
  lemma CallPinsStay(f: Function, base: Env, k: Key)
    requires Tidy(f) && Pinnable(f.params, base) && k in base && Unwritten(k, BodyWrites(f.body, Nil))
    ensures k in WithLocals(f, base) && WithLocals(f, base)[k] == base[k]
  {
    PinSources(f, base);
    UnassignedExactly(base, BodyWrites(f.body, Nil), k);
  }

  function PickOne(b: Binder, base: Env, out: Env): Env {
    if b.Picking? && Member(b.y, b.key) in out && Var(b.x) !in base then out[Var(b.x) := out[Member(b.y, b.key)]]
    else out
  }

  lemma {:induction false} PickFound(rest: seq<Binder>, base: Env, start: Env, out: Env, b: Binder)
    requires Within(start, base) && Within(start, out)
    requires forall a <- rest :: Var(a.x) !in start
    requires b.Picking? && Member(b.y, b.key) in start && Var(b.x) !in base && (Var(b.x) in out || b in rest)
    ensures Var(b.x) in PinPicks(rest, base, out)
  {
    if rest != [] {
      assert b in rest ==> b == rest[0] || b in rest[1..];
      PickFound(rest[1..], base, start, PickOne(rest[0], base, out), b);
    }
  }

  lemma PickPresent(f: Function, base: Env, b: Binder)
    requires Tidy(f) && Pinnable(f.params, base) && b in BodyBinders(f.body) && b.Picking?
    requires Member(b.y, b.key) in Unassigned(base, BodyWrites(f.body, Nil))
    ensures Var(b.x) in WithLocals(f, base)
  {
    PinSources(f, base);
    var start := Unassigned(base, BodyWrites(f.body, Nil));
    PickFound(BodyBinders(f.body), base, start, start, b);
  }

  /** A name unpacked from a property that the call pinned, and that nothing assigns, is pinned. */
  lemma PickPinned(f: Function, base: Env, b: Binder)
    requires Tidy(f) && Pinnable(f.params, base) && b in BodyBinders(f.body) && b.Picking?
    requires Member(b.y, b.key) in base && Unwritten(Member(b.y, b.key), BodyWrites(f.body, Nil))
    ensures Var(b.x) in WithLocals(f, base) && WithLocals(f, base)[Var(b.x)] == base[Member(b.y, b.key)]
  {
    UnassignedExactly(base, BodyWrites(f.body, Nil), Member(b.y, b.key));
    PickPresent(f, base, b);
    BindersHold(f, base, b);
    CallPinsStay(f, base, Member(b.y, b.key));
  }

  ghost predicate OnlyNamesAdded(start: Env, out: Env) {
    Within(start, out) && forall k <- out :: k.Member? ==> k in start
  }

  lemma ConstantStays(b: Binder, writes: seq<Writing>, start: Env, out: Env)
    requires b.Local? && OnlyNamesAdded(start, out) && Constant(b, writes, start)
    ensures Constant(b, writes, out)
  {
    forall i | 0 <= i < |writes| && writes[i].key == Var(b.x) && !b.fixed
      ensures Excluded(writes[i].path, out)
    {
      ExcludedMonotone(writes[i].path, start, out);
    }
  }

  lemma {:induction false} LocalFound(i: nat, binders: seq<Binder>, writes: seq<Writing>, base: Env, start: Env,
                                      out: Env,
                                      b: Binder)
    requires i <= |binders| && Within(start, base) && OnlyNamesAdded(start, out)
    requires b in binders && b.Local? && Times(binders, b.x) == 1 && Var(b.x) !in base
    requires Evaluate(b.init, start).Some? && Constant(b, writes, start)
    requires Var(b.x) in out || b in binders[i..]
    ensures Var(b.x) in PinLocals(binders[i..], binders, writes, base, out)
    decreases |binders| - i
  {
    if i < |binders| {
      var a := binders[i];
      assert binders[i..][0] == a && binders[i..][1..] == binders[i + 1..];
      assert b in binders[i..] ==> b == a || b in binders[i + 1..];
      EvaluateMonotone(b.init, start, out);
      ConstantStays(b, writes, start, out);
      if a.Picking? || Times(binders, a.x) != 1 || Var(a.x) in base {
        LocalFound(i + 1, binders, writes, base, start, out, b);
      } else {
        var known := Evaluate(a.init, out);
        var next := if known.Some? && Constant(a, writes, out) then out[Var(a.x) := known.value] else out;
        LocalFound(i + 1, binders, writes, base, start, next, b);
      }
    }
  }

  lemma {:induction false} NotCounted(binders: seq<Binder>, x: string)
    requires forall c <- binders :: c.Local? ==> c.x != x
    ensures Times(binders, x) == 0
  {
    if binders != [] {
      NotCounted(binders[1..], x);
    }
  }

  lemma {:induction false} CountedOnce(binders: seq<Binder>, b: Binder)
    requires Once(binders) && b in binders && b.Local? && forall c <- binders :: c.Local? && c.x == b.x ==> c == b
    ensures Times(binders, b.x) == 1
  {
    var rest := binders[1..];
    assert binders == [binders[0]] + rest;
    if binders[0] == b {
      NotCounted(rest, b.x);
    } else {
      CountedOnce(rest, b);
    }
  }

  /**
   * A local declared once is pinned if the call's own pins decide its initializer and it is fixed or assigned only in
   * branches that they exclude.
   */
  lemma LocalPinned(f: Function, base: Env, b: Binder)
    requires Tidy(f) && Pinnable(f.params, base) && b in BodyBinders(f.body) && b.Local?
    requires Once(BodyBinders(f.body)) && forall c <- BodyBinders(f.body) :: c.Local? && c.x == b.x ==> c == b
    requires b.fixed || forall w <- BodyWrites(f.body, Nil) ::
               w.key == Var(b.x) ==> Excluded(w.path, Unassigned(base, BodyWrites(f.body, Nil)))
    requires Evaluate(b.init, Unassigned(base, BodyWrites(f.body, Nil))).Some?
    ensures var known := Evaluate(b.init, Unassigned(base, BodyWrites(f.body, Nil)));
            Var(b.x) in WithLocals(f, base) && WithLocals(f, base)[Var(b.x)] == known.value
  {
    PinSources(f, base);
    var writes, binders := BodyWrites(f.body, Nil), BodyBinders(f.body);
    var start := Unassigned(base, writes);
    var picked := PinPicks(binders, base, start);
    assert binders[0..] == binders;
    CountedOnce(binders, b);
    LocalFound(0, binders, writes, base, start, picked, b);
    BindersHold(f, base, b);
    EvaluateMonotone(b.init, start, WithLocals(f, base));
  }

  // ----- Whole routes

  lemma {:induction false} TakesLess(w: World, c: Cover, sum: Summary, n: nat, m: nat, locks: set<nat>)
    requires Takes(w, c, sum, n, locks) && m <= n
    ensures Takes(w, c, sum, m, locks)
    decreases n
  {
    if m > 0 {
      forall u | u in sum.callees && u in c.targets && u.fn < |w.program| && u.fn !in w.barriers
        ensures TakesState(w, c, u, m - 1, locks)
      {
        assert TakesState(w, c, u, n - 1, locks);
        TakesLess(w, c, Summarize(w.program, u), n - 1, m - 1, locks);
      }
    }
  }

  /** A state that the entry leads to by at most `j` calls is taken that much less deep. */
  lemma {:induction false} StateTaken(w: World, c: Cover, entry: Target, states: seq<Target>, locks: set<nat>, j: nat,
                                      n: nat)
    requires Follows(w.program, entry, w.barriers, states) && c.targets == (set t | t in states) && j < |states|
    requires TakesState(w, c, entry, n + j, locks)
    ensures TakesState(w, c, states[j], n, locks)
    decreases j, 1
  {
    if states[j] == entry {
      StateLess(w, c, entry, n + j, n, locks);
    } else {
      CalledTaken(w, c, entry, states, locks, j, n);
    }
  }

  lemma {:induction false} CalledTaken(w: World, c: Cover, entry: Target, states: seq<Target>, locks: set<nat>, j: nat,
                                       n: nat)
    requires Follows(w.program, entry, w.barriers, states) && c.targets == (set t | t in states) && j < |states|
    requires TakesState(w, c, entry, n + j, locks) && states[j] != entry
    ensures TakesState(w, c, states[j], n, locks)
    decreases j, 0
  {
    var i := CallerBefore(w.program, entry, w.barriers, states, j);
    assert TakesState(w, c, states[i], n + 1, locks) by {
      StateLess(w, c, entry, n + j, n + 1 + i, locks);
      StateTaken(w, c, entry, states, locks, i, n + 1);
    }
    OneCallLess(w, c, states[i], states[j], n, locks);
  }

  lemma StateLess(w: World, c: Cover, t: Target, n: nat, m: nat, locks: set<nat>)
    requires t.fn < |w.program| && TakesState(w, c, t, n, locks) && m <= n
    ensures TakesState(w, c, t, m, locks)
  {
    TakesLess(w, c, Summarize(w.program, t), n, m, locks);
  }

  lemma CallerBefore(p: Program, entry: Target, barriers: set<nat>, states: seq<Target>, j: nat) returns (i: nat)
    requires Follows(p, entry, barriers, states) && j < |states| && states[j] != entry
    ensures i < j && Leads(p, barriers, states[i], states[j])
  {
    assert HasCaller(p, barriers, states, j);
    i :| 0 <= i < j && Leads(p, barriers, states[i], states[j]);
  }

  lemma OneCallLess(w: World, c: Cover, caller: Target, t: Target, n: nat, locks: set<nat>)
    requires caller.fn < |w.program| && TakesState(w, c, caller, n + 1, locks)
    requires t in c.targets && t.fn < |w.program| && Leads(w.program, w.barriers, caller, t)
    ensures TakesState(w, c, t, n, locks)
  {
    assert n + 1 - 1 == n;
    assert Takes(w, c, Summarize(w.program, caller), n + 1, locks);
  }

  lemma {:induction false} StatesPinned(p: Program, entry: Target, barriers: set<nat>, states: seq<Target>, j: nat)
    requires Auditable(p) && Enterable(p, entry) && Follows(p, entry, barriers, states) && j < |states|
    ensures Pinnable(p[states[j].fn].params, states[j].env)
    decreases j
  {
    if states[j] != entry {
      var i := CallerBefore(p, entry, barriers, states, j);
      SummaryProper(p, states[i]);
    }
  }

  lemma StateCovers(p: Program, entry: Target, barriers: set<nat>, report: RouteReport, w: World, t: Target)
    requires Auditable(p) && Enterable(p, entry) && Follows(p, entry, barriers, report.states) && t in report.states
    requires FoundIn(p, report.states, report.locks) && Settled(p, report.states)
    requires w.program == p && w.barriers == barriers
    ensures CoversState(w, Cover(report.locks, (set u | u in report.states), ReliedOn(p, report.states)), t)
  {
    var states := report.states;
    var c := Cover(report.locks, (set u | u in states), ReliedOn(p, states));
    var j :| 0 <= j < |states| && states[j] == t;
    StatesPinned(p, entry, barriers, states, j);
    forall u | u in Summarize(p, t).callees
      ensures Followed(u, c, barriers)
    {
      assert u.fn in barriers || Leads(p, barriers, t, u);
    }
  }

  lemma RouteCovers(p: Program, entry: Target, barriers: set<nat>, report: RouteReport, oracle: nat -> Choice)
    requires Auditable(p) && Enterable(p, entry) && Right(p, entry, barriers, report) && report.settled
    requires Follows(p, entry, barriers, report.states) && Spares(oracle, ReliedOn(p, report.states))
    ensures Covers(World(p, barriers, oracle),
                   Cover(report.locks, (set t | t in report.states), ReliedOn(p, report.states)))
  {
    var w, c := World(p, barriers, oracle),
      Cover(report.locks, (set t | t in report.states), ReliedOn(p, report.states));
    forall t | t in c.targets
      ensures CoversState(w, c, t)
    {
      StateCovers(p, entry, barriers, report, w, t);
    }
  }

  /** The handler was run on fitting values, with no lock held, to its end. */
  ghost predicate Completes(p: Program, entry: Target, barriers: set<nat>, oracle: nat -> Choice, fuel: nat,
                            ds: List<Data>, heap: Heap, tick: nat)
    requires entry.fn < |p|
  {
    var r := RunBody(fuel, World(p, barriers, oracle), p[entry.fn], ds, State(map[], heap, tick, {}));
    && ParamsOk(p[entry.fn].params, ds, WithLocals(p[entry.fn], entry.env), heap)
    && !r.out.Threw? && !r.out.Cut?
  }

  lemma EntryTaken(p: Program, entry: Target, barriers: set<nat>, c: Cover,
                   oracle: nat -> Choice, fuel: nat, ds: List<Data>, heap: Heap, tick: nat, n: nat)
    requires Exactable(World(p, barriers, oracle), c) && entry in c.targets && entry.fn < |p|
    requires Completes(p, entry, barriers, oracle, fuel, ds, heap, tick)
    ensures TakesState(World(p, barriers, oracle), c, entry, n,
                       LocksTaken(p, entry.fn, barriers, oracle, fuel, ds, heap, tick))
  {
    BodyExact(fuel, World(p, barriers, oracle), c, entry, ds, State(map[], heap, tick, {}), n);
  }

  lemma StatesTaken(w: World, c: Cover, entry: Target, states: seq<Target>, found: set<nat>, locks: set<nat>)
    requires Follows(w.program, entry, w.barriers, states) && c.targets == (set t | t in states)
    requires FoundIn(w.program, states, found) && TakesState(w, c, entry, |states|, locks)
    ensures found <= locks
  {
    forall k | k in found
      ensures k in locks
    {
      var t :| t in states && k in Summarize(w.program, t).locks;
      var j :| 0 <= j < |states| && states[j] == t;
      StateLess(w, c, entry, |states|, j, locks);
      StateTaken(w, c, entry, states, locks, j, 0);
    }
  }

  /**
   * On a route that is settled and all of whose states are decided, with no function full, the report is exact: every
   * run of the handler on fitting values that comes to its end takes exactly the locks reported.
   */
  lemma RouteExact(p: Program, entry: Target, barriers: set<nat>, report: RouteReport,
                   oracle: nat -> Choice, fuel: nat, ds: List<Data>, heap: Heap, tick: nat)
    requires Auditable(p) && Enterable(p, entry) && Right(p, entry, barriers, report) && report.settled
    requires Follows(p, entry, barriers, report.states) && forall t <- report.states :: SettledState(p, t)
    requires Spares(oracle, ReliedOn(p, report.states))
    requires Completes(p, entry, barriers, oracle, fuel, ds, heap, tick)
    ensures LocksTaken(p, entry.fn, barriers, oracle, fuel, ds, heap, tick) == report.locks
  {
    var w, states := World(p, barriers, oracle), report.states;
    var c := Cover(report.locks, (set t | t in states), ReliedOn(p, states));
    var locks := LocksTaken(p, entry.fn, barriers, oracle, fuel, ds, heap, tick);
    RouteCovers(p, entry, barriers, report, oracle);
    EntryTaken(p, entry, barriers, c, oracle, fuel, ds, heap, tick, |states|);
    StatesTaken(w, c, entry, states, report.locks, locks);
    assert Accounts(p, entry, barriers, report.locks, ReliedOn(p, states));
  }
}
