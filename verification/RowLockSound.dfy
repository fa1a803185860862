/** Every lock a run acquires is in the summary of some specialization the audit covers. */
module RowLockSound {
  import opened Options
  import opened RowLockLanguage
  import opened RowLockAudit
  import opened RowLockFacts
  import opened RowLockHeap
  import opened RowLockLocals

  // ----- Agreement between a frame and what the audit knows of it

  /** A property that is pinned is there, with its value, on the object that the name holds. */
  ghost predicate Carries(d: Data, x: string, env: Env, heap: Heap) {
    forall p :: Member(x, p) in env ==> IsObject(d, heap) && Get(d, p, heap) == Prim(env[Member(x, p)])
  }

  ghost predicate Agrees(d: Data, x: string, env: Env, heap: Heap) {
    (Var(x) in env ==> d == Prim(env[Var(x)])) && Carries(d, x, env, heap)
  }

  ghost predicate Holds(fr: Frame, st: State) {
    forall x <- st.store :: Agrees(st.store[x].d, x, fr.env, st.heap) && (x in fr.consts ==> st.store[x].fixed)
  }

  // ----- The properties a frame relies on

  /** The keys that a pattern unpacks into pinned names. */
  function ElemKeys(elems: List<Elem>, env: Env): set<string> {
    match elems
    case Nil => {}
    case Cons(elem, rest) => (if Var(elem.x) in env then {elem.key} else {}) + ElemKeys(rest, env)
  }

  function ParamKeys(params: List<Param>, env: Env): set<string> {
    match params
    case Nil => {}
    case Cons(param, rest) => (if param.Pattern? then ElemKeys(param.elems, env) else {}) + ParamKeys(rest, env)
  }

  function MemberKeys(env: Env): set<string> {
    set k | k in env && k.Member? :: k.p
  }

  /** The properties whose values the walk of a specialization relies on. */
  function Relied(f: Function, base: Env): set<string> {
    var env := WithLocals(f, base);
    MemberKeys(env) + ParamKeys(f.params, env)
  }

  ghost predicate MembersIn(env: Env, props: set<string>) {
    forall k <- env :: k.Member? ==> k.p in props
  }

  lemma CarriesOn(d: Data, x: string, env: Env, props: set<string>, was: Heap, now: Heap)
    requires MembersIn(env, props) && Grew(props, was, now) && Carries(d, x, env, was)
    ensures Carries(d, x, env, now)
  {
  }

  lemma HoldsOn(fr: Frame, st: State, props: set<string>, heap: Heap)
    requires MembersIn(fr.env, props) && Grew(props, st.heap, heap) && Holds(fr, st)
    ensures Holds(fr, st.(heap := heap))
  {
    forall x | x in st.store
      ensures Agrees(st.store[x].d, x, fr.env, heap)
    {
      assert Agrees(st.store[x].d, x, fr.env, st.heap);
      CarriesOn(st.store[x].d, x, fr.env, props, st.heap, heap);
    }
  }

  // ----- Programs the audit is right about

  function FieldNames(fs: List<Field>): seq<string> {
    match fs
    case Nil => []
    case Cons(field, rest) => [field.name] + FieldNames(rest)
  }

  /** Object literals name each property once. */
  ghost predicate WfExpr(e: Expr) {
    match e
    case Lit(_) => true
    case Name(_) => true
    case Prop(_, _, _) => true
    case Not(e1) => WfExpr(e1)
    case And(l, r) => WfExpr(l) && WfExpr(r)
    case Or(l, r) => WfExpr(l) && WfExpr(r)
    case Nullish(l, r) => WfExpr(l) && WfExpr(r)
    case Equal(l, r, _) => WfExpr(l) && WfExpr(r)
    case Cond(c, t, f) => WfExpr(c) && WfExpr(t) && WfExpr(f)
    case Record(fields) => WfFields(fields)
    case Call(_, args) => WfExprs(args)
    case Assign(_, e1) => WfExpr(e1)
    case AssignProp(_, _, e1) => WfExpr(e1)
    case Lock(_, spans) => WfExprs(spans)
    case Opaque(parts) => WfExprs(parts)
  }

  ghost predicate WfExprs(es: List<Expr>) {
    es.Cons? ==> WfExpr(es.head) && WfExprs(es.tail)
  }

  ghost predicate WfFields(fs: List<Field>) {
    fs.Cons? ==> WfExpr(fs.head.value) && WfFields(fs.tail) && fs.head.name !in FieldNames(fs.tail)
  }

  ghost predicate WfStmt(s: Stmt) {
    match s
    case ExprStmt(e) => WfExpr(e)
    case Declare(_, _, init) => WfExpr(init)
    case Unpack(_, _, _) => true
    case Block(body) => WfStmts(body)
    case If(c, t, f) => WfExpr(c) && WfStmt(t) && WfStmt(f)
    case Return(e) => WfExpr(e)
    case Throw(e) => WfExpr(e)
    case Break => true
    case Continue => true
    case Switch(d, clauses) => WfExpr(d) && WfClauses(clauses)
    case While(c, loop) => WfExpr(c) && WfStmt(loop)
    case Try(body, handler, finalizer) => WfStmts(body) && WfStmts(handler) && WfStmts(finalizer)
  }

  ghost predicate WfStmts(ss: List<Stmt>) {
    ss.Cons? ==> WfStmt(ss.head) && WfStmts(ss.tail)
  }

  ghost predicate WfClauses(clauses: List<Clause>) {
    clauses.Cons? ==>
      && (clauses.head.test.Some? ==> WfExpr(clauses.head.test.value))
      && WfStmts(clauses.head.body)
      && WfClauses(clauses.tail)
  }

  /** Initializers assign nothing. */
  ghost predicate WfInit(init: Option<Expr>) {
    init.Some? ==> WfExpr(init.value) && forall env :: Live(init.value, env) == {}
  }

  ghost predicate WfElems(elems: List<Elem>) {
    elems.Cons? ==> WfInit(elems.head.init) && WfElems(elems.tail)
  }

  ghost predicate WfParams(params: List<Param>) {
    params.Cons? ==>
      && (match params.head
          case Plain(_, init) => WfInit(init)
          case Pattern(elems, _) => WfElems(elems))
      && WfParams(params.tail)
  }

  ghost predicate Auditable(p: Program) {
    forall f <- p :: Tidy(f) && WfParams(f.params) && WfStmts(f.body)
  }

  // ----- Switches the audit decides

  /** The environment decides every label. */
  predicate Labelled(clauses: List<Clause>, env: Env) {
    clauses.Cons? ==>
      && (clauses.head.test.Some? ==> Evaluate(clauses.head.test.value, env).Some?)
      && Labelled(clauses.tail, env)
  }

  /** Wherever the environment decides what is switched on, it decides the labels too. */
  predicate Decided(s: Stmt, env: Env) {
    match s
    case Block(body) => DecidedAll(body, env)
    case If(c, t, f) =>
      (Excludes(Guard(c, true), env) || Decided(t, env)) && (Excludes(Guard(c, false), env) || Decided(f, env))
    case Switch(d, clauses) => (Evaluate(d, env).Some? ==> Labelled(clauses, env)) && DecidedClauses(clauses, env)
    case While(_, loop) => Decided(loop, env)
    case Try(body, handler, finalizer) => DecidedAll(body, env) && DecidedAll(handler, env)
      && DecidedAll(finalizer, env)
    case _ => true
  }

  predicate DecidedAll(ss: List<Stmt>, env: Env) {
    ss.Cons? ==> Decided(ss.head, env) && DecidedAll(ss.tail, env)
  }

  predicate DecidedClauses(clauses: List<Clause>, env: Env) {
    clauses.Cons? ==> DecidedAll(clauses.head.body, env) && DecidedClauses(clauses.tail, env)
  }

  predicate DecidedIn(p: Program, t: Target)
    requires t.fn < |p|
  {
    DecidedAll(p[t.fn].body, WithLocals(p[t.fn], t.env))
  }

  // ----- Covers

  /** Locks and specializations that account for everything they can call, and the properties they rely on. */
  datatype Cover = Cover(locks: set<nat>, targets: set<Target>, props: set<string>)

  ghost predicate Followed(t: Target, c: Cover, barriers: set<nat>) {
    t.fn in barriers || t in c.targets || Target(t.fn, map[]) in c.targets
  }

  ghost predicate Allowed(sum: Summary, c: Cover, barriers: set<nat>) {
    sum.locks <= c.locks && forall t <- sum.callees :: Followed(t, c, barriers)
  }

  ghost predicate CoversState(w: World, c: Cover, t: Target) {
    && t.fn < |w.program|
    && Pinnable(w.program[t.fn].params, t.env)
    && Relied(w.program[t.fn], t.env) <= c.props
    && DecidedIn(w.program, t)
    && Allowed(Summarize(w.program, t), c, w.barriers)
  }

  ghost predicate Covers(w: World, c: Cover) {
    Quiet(w, c.props) && forall t <- c.targets :: CoversState(w, c, t)
  }

  lemma AllowedPlus(a: Summary, b: Summary, c: Cover, barriers: set<nat>)
    requires Allowed(a.Plus(b), c, barriers)
    ensures Allowed(a, c, barriers) && Allowed(b, c, barriers)
  {
    forall t | t in a.callees || t in b.callees
      ensures Followed(t, c, barriers)
    {
      assert t in a.Plus(b).callees;
    }
  }

  ghost predicate WritesOk(keys: set<Key>, fr: Frame) {
    forall k <- keys :: WriteOk(k, fr)
  }

  // ----- What an expression's run keeps

  /** The frame still holds and no lock outside the cover was taken. */
  ghost predicate Kept(fr: Frame, c: Cover, st: State) {
    MembersIn(fr.env, c.props) && Holds(fr, st) && st.locks <= c.locks
  }

  ghost predicate Ready(w: World, c: Cover, fr: Frame, e: Expr) {
    && WfExpr(e) && Sets(e) !! c.props && WritesOk(Live(e, fr.env), fr)
    && Allowed(Visit(w.program, e, fr.env), c, w.barriers)
  }

  ghost predicate ReadyAll(w: World, c: Cover, fr: Frame, es: List<Expr>) {
    && WfExprs(es) && SetsAll(es) !! c.props && WritesOk(LiveAll(es, fr.env), fr)
    && Allowed(VisitAll(w.program, es, fr.env), c, w.barriers)
  }

  ghost predicate ReadyFields(w: World, c: Cover, fr: Frame, fs: List<Field>) {
    && WfFields(fs) && FieldSets(fs) !! c.props && WritesOk(LiveFields(fs, fr.env), fr)
    && Allowed(VisitFields(w.program, fs, fr.env), c, w.barriers)
  }

  /** A value is what the audit said it would be. */
  ghost predicate Known(e: Expr, env: Env, d: Data) {
    var v := Evaluate(e, env);
    v.Some? ==> d == Prim(v.value)
  }

  /** The fields of an evaluated object literal. */
  ghost predicate FieldsKnown(fs: List<Field>, env: Env, o: Object, props: set<string>) {
    forall key <- props ::
      match FindField(fs, key)
      case None => Slot(o, key) == UNDEFINED
      case Some(e) => Known(e, env, Slot(o, key))
  }

  /** What a callee may rely on about an argument's value. */
  ghost predicate ArgKnown(e: Expr, env: Env, d: Data, heap: Heap, props: set<string>) {
    && Known(e, env, d)
    && (e.Name? ==> Agrees(d, e.x, env, heap))
    && (e.Record? ==> IsObject(d, heap) && FieldsKnown(e.fields, env, heap[d.a], props))
  }

  ghost predicate ArgsKnown(es: List<Expr>, env: Env, ds: List<Data>, heap: Heap, props: set<string>) {
    if es.Nil? then ds.Nil?
    else ds.Cons? && ArgKnown(es.head, env, ds.head, heap, props) && ArgsKnown(es.tail, env, ds.tail, heap, props)
  }

  lemma ArgKnownOn(e: Expr, env: Env, d: Data, was: Heap, now: Heap, props: set<string>)
    requires MembersIn(env, props) && Grew(props, was, now) && ArgKnown(e, env, d, was, props)
    ensures ArgKnown(e, env, d, now, props)
  {
    if e.Name? {
      CarriesOn(d, e.x, env, props, was, now);
    }
  }

  // ----- What a call site pins holds of the values it passes

  /** The value a binding ends up with, given what was passed and the initializer. */
  ghost predicate DefaultOk(d: Data, init: Option<Expr>, v: Value) {
    if d == UNDEFINED && init.Some? then Evaluate(init.value, map[]) == Some(v) else d == Prim(v)
  }

  ghost predicate ElemsOk(elems: List<Elem>, o: Option<Object>, env: Env) {
    elems.Cons? ==>
      && (forall p :: Member(elems.head.x, p) !in env)
      && (Var(elems.head.x) in env ==>
            o.Some? && DefaultOk(Slot(o.value, elems.head.key), elems.head.init, env[Var(elems.head.x)]))
      && ElemsOk(elems.tail, o, env)
  }

  function ObjectOf(d: Data, heap: Heap): Option<Object> {
    if IsObject(d, heap) then Some(heap[d.a]) else None
  }

  /** What a pattern unpacks. */
  function Whole(d: Data, empty: bool, heap: Heap): Option<Object> {
    if d == UNDEFINED && empty then Some(map[]) else ObjectOf(d, heap)
  }

  predicate Unpacks(d: Data, empty: bool) {
    (d == UNDEFINED && empty) || !Missing(d)
  }

  ghost predicate ParamOk(param: Param, d: Data, env: Env, heap: Heap) {
    match param
    case Plain(x, init) => (Var(x) in env ==> DefaultOk(d, init, env[Var(x)])) && Carries(d, x, env, heap)
    case Pattern(elems, empty) => Unpacks(d, empty) ==> ElemsOk(elems, Whole(d, empty, heap), env)
  }

  ghost predicate ParamsOk(params: List<Param>, ds: List<Data>, env: Env, heap: Heap) {
    params.Cons? ==>
      && ParamOk(params.head, if ds.Nil? then UNDEFINED else ds.head, env, heap)
      && ParamsOk(params.tail, if ds.Nil? then Nil else ds.tail, env, heap)
  }

  lemma {:induction false} ElemsOn(elems: List<Elem>, was: Option<Object>, now: Option<Object>, env: Env,
                                   props: set<string>)
    requires ElemsOk(elems, was, env) && ElemKeys(elems, env) <= props
    requires was.Some? ==> now.Some? && forall p <- props :: Slot(now.value, p) == Slot(was.value, p)
    ensures ElemsOk(elems, now, env)
    decreases elems
  {
    if elems.Cons? {
      ElemsOn(elems.tail, was, now, env, props);
    }
  }

  lemma ParamOn(param: Param, d: Data, env: Env, was: Heap, now: Heap, props: set<string>)
    requires ParamOk(param, d, env, was) && Grew(props, was, now)
    requires MembersIn(env, props) && ParamKeys(Cons(param, Nil), env) <= props
    ensures ParamOk(param, d, env, now)
  {
    match param
    case Plain(x, init) => CarriesOn(d, x, env, props, was, now);
    case Pattern(elems, empty) =>
      if Unpacks(d, empty) {
        ElemsOn(elems, Whole(d, empty, was), Whole(d, empty, now), env, props);
      }
  }

  /** What was passed still fits when the heap has grown. */
  lemma {:induction false} ParamsOn(params: List<Param>, ds: List<Data>, env: Env, was: Heap, now: Heap,
                                    props: set<string>)
    requires ParamsOk(params, ds, env, was) && Grew(props, was, now)
    requires MembersIn(env, props) && ParamKeys(params, env) <= props
    ensures ParamsOk(params, ds, env, now)
    decreases params
  {
    if params.Cons? {
      ParamOn(params.head, if ds.Nil? then UNDEFINED else ds.head, env, was, now, props);
      ParamsOn(params.tail, if ds.Nil? then Nil else ds.tail, env, was, now, props);
    }
  }

  /** Among the given names, an environment says no more than the pins do. */
  ghost predicate Only(names: seq<string>, pins: Env, env: Env) {
    forall k <- env :: k.x in names ==> k in pins && pins[k] == env[k]
  }

  lemma {:induction false} FindFieldNamed(fs: List<Field>, key: string)
    ensures FindField(fs, key).Some? <==> key in FieldNames(fs)
  {
    if fs.Cons? {
      FindFieldNamed(fs.tail, key);
    }
  }

  lemma {:induction false} FieldPinsAre(x: string, fs: List<Field>, env: Env, k: Key)
    requires WfFields(fs) && k in FieldPins(x, fs, env)
    ensures k.Member? && k.x == x
    ensures var e := FindField(fs, k.p); e.Some? && Evaluate(e.value, env) == Some(FieldPins(x, fs, env)[k])
  {
    if k in FieldPins(x, fs.tail, env) {
      FieldPinsAre(x, fs.tail, env, k);
      FindFieldNamed(fs.tail, k.p);
    }
  }

  lemma {:induction false} ElemPinNames(elems: List<Elem>, arg: Option<Expr>, empty: bool, env: Env)
    ensures forall k <- ElemPins(elems, arg, empty, env) :: k.Var? && k.x in ElemNames(elems)
  {
    if elems.Cons? {
      ElemPinNames(elems.tail, arg, empty, env);
    }
  }

  lemma ParamPinNames(param: Param, arg: Option<Expr>, env: Env)
    requires arg.Some? ==> WfExpr(arg.value)
    ensures forall k <- ParamPins(param, arg, env) :: k.x in NamesOf(param)
  {
    match param
    case Plain(x, _) =>
      if arg.Some? && arg.value.Record? {
        forall k | k in FieldPins(x, arg.value.fields, env)
          ensures k.x == x
        {
          FieldPinsAre(x, arg.value.fields, env, k);
        }
      }
    case Pattern(elems, empty) => ElemPinNames(elems, arg, empty, env);
  }

  lemma {:induction false} CalleePinNames(params: List<Param>, args: List<Expr>, env: Env)
    requires WfExprs(args)
    ensures forall k <- CalleeEnv(params, args, env) :: k.x in ParamNames(params)
    decreases params
  {
    if params.Cons? {
      ParamPinNames(params.head, if args.Nil? then None else Some(args.head), env);
      CalleePinNames(params.tail, if args.Nil? then Nil else args.tail, env);
    }
  }

  ghost predicate Passed(arg: Option<Expr>, env: Env, d: Data, heap: Heap, props: set<string>) {
    if arg.None? then d == UNDEFINED else WfExpr(arg.value) && ArgKnown(arg.value, env, d, heap, props)
  }

  lemma PlainPinsOk(x: string, init: Option<Expr>, arg: Option<Expr>, caller: Env, d: Data, env: Env, heap: Heap,
                    props: set<string>)
    requires Passed(arg, caller, d, heap, props) && MembersIn(env, props)
    requires Only([x], ParamPins(Plain(x, init), arg, caller), env)
    ensures ParamOk(Plain(x, init), d, env, heap)
  {
    var param := Plain(x, init);
    ParamPinNames(param, arg, caller);
    var pins := ParamPins(param, arg, caller);
    assert forall k <- env :: k.x == x ==> k in pins && pins[k] == env[k];
    forall p | Member(x, p) in env
      ensures IsObject(d, heap) && Get(d, p, heap) == Prim(env[Member(x, p)])
    {
      assert p in props;
      if arg.Some? && arg.value.Record? {
        FieldPinsAre(x, arg.value.fields, caller, Member(x, p));
      }
    }
    if arg.Some? && arg.value.Record? {
      forall k | k in FieldPins(x, arg.value.fields, caller)
        ensures k.Member?
      {
        FieldPinsAre(x, arg.value.fields, caller, k);
      }
    }
  }

  lemma ElemPinOk(elem: Elem, empty: bool, arg: Option<Expr>, caller: Env, d: Data, v: Value, heap: Heap,
                  props: set<string>)
    requires Passed(arg, caller, d, heap, props) && Unpacks(d, empty) && elem.key in props
    requires OrDefault(ElemKnown(elem, arg, empty, caller), elem.init) == Some(v)
    ensures var o := Whole(d, empty, heap); o.Some? && DefaultOk(Slot(o.value, elem.key), elem.init, v)
  {
  }

  lemma {:induction false} ElemPinsOk(elems: List<Elem>, empty: bool, arg: Option<Expr>, caller: Env, d: Data, env: Env,
                                      heap: Heap, props: set<string>)
    requires Passed(arg, caller, d, heap, props) && Distinct(ElemNames(elems)) && Unpacks(d, empty)
    requires ElemKeys(elems, env) <= props
    requires Only(ElemNames(elems), ElemPins(elems, arg, empty, caller), env)
    ensures ElemsOk(elems, Whole(d, empty, heap), env)
    decreases elems
  {
    if elems.Cons? {
      var elem, rest := elems.head, elems.tail;
      ElemPinNames(rest, arg, empty, caller);
      var names := ElemNames(elems);
      assert names[0] == elem.x && names[1..] == ElemNames(rest);
      assert forall name <- ElemNames(rest) :: name in names && name != elem.x;
      var pins := ElemPins(elems, arg, empty, caller);
      assert Only(ElemNames(rest), ElemPins(rest, arg, empty, caller), env);
      ElemPinsOk(rest, empty, arg, caller, d, env, heap, props);
      assert elem.x in names;
      if Var(elem.x) in env {
        ElemPinOk(elem, empty, arg, caller, d, env[Var(elem.x)], heap, props);
      }
    }
  }

  lemma ParamPinsOk(param: Param, arg: Option<Expr>, caller: Env, d: Data, env: Env, heap: Heap, props: set<string>)
    requires Passed(arg, caller, d, heap, props) && Distinct(NamesOf(param))
    requires MembersIn(env, props) && ParamKeys(Cons(param, Nil), env) <= props
    requires Only(NamesOf(param), ParamPins(param, arg, caller), env)
    ensures ParamOk(param, d, env, heap)
  {
    match param
    case Plain(x, init) => PlainPinsOk(x, init, arg, caller, d, env, heap, props);
    case Pattern(elems, empty) =>
      if Unpacks(d, empty) {
        ElemPinsOk(elems, empty, arg, caller, d, env, heap, props);
      }
  }

  /** A callee's frame may start from what its call site pinned. */
  lemma {:induction false} CalleeOk(params: List<Param>, args: List<Expr>, caller: Env, ds: List<Data>, env: Env,
                                    heap: Heap, props: set<string>)
    requires WfExprs(args) && ArgsKnown(args, caller, ds, heap, props) && Distinct(ParamNames(params))
    requires MembersIn(env, props) && ParamKeys(params, env) <= props
    requires Only(ParamNames(params), CalleeEnv(params, args, caller), env)
    ensures ParamsOk(params, ds, env, heap)
    decreases params
  {
    if params.Cons? {
      var param, rest := params.head, params.tail;
      var arg := if args.Nil? then None else Some(args.head);
      var args' := if args.Nil? then Nil else args.tail;
      ParamPinNames(param, arg, caller);
      CalleePinNames(rest, args', caller);
      var names, mine, others := ParamNames(params), NamesOf(param), ParamNames(rest);
      assert mine == names[..|mine|] && others == names[|mine|..];
      forall k | k in env && k.x in mine
        ensures k in ParamPins(param, arg, caller) && ParamPins(param, arg, caller)[k] == env[k]
      {
        assert k.x in names && k.x !in others;
      }
      forall k | k in env && k.x in others
        ensures k in CalleeEnv(rest, args', caller) && CalleeEnv(rest, args', caller)[k] == env[k]
      {
        assert k.x in names && k.x !in mine;
      }
      ParamPinsOk(param, arg, caller, if ds.Nil? then UNDEFINED else ds.head, env, heap, props);
      CalleeOk(rest, args', caller, if ds.Nil? then Nil else ds.tail, env, heap, props);
    }
  }

  lemma {:induction false} NothingPinned(params: List<Param>, ds: List<Data>, env: Env, heap: Heap)
    requires forall k <- env :: k.x !in ParamNames(params)
    ensures ParamsOk(params, ds, env, heap)
    decreases params
  {
    if params.Cons? {
      var names := ParamNames(params);
      assert forall x <- NamesOf(params.head) :: x in names;
      assert forall x <- ParamNames(params.tail) :: x in names;
      NothingPinned(params.tail, if ds.Nil? then Nil else ds.tail, env, heap);
      match params.head
      case Plain(x, _) => assert x in NamesOf(params.head);
      case Pattern(elems, empty) =>
        NoElemPinned(elems, Whole(if ds.Nil? then UNDEFINED else ds.head, empty, heap), env);
    }
  }

  lemma {:induction false} NoElemPinned(elems: List<Elem>, o: Option<Object>, env: Env)
    requires forall k <- env :: k.x !in ElemNames(elems)
    ensures ElemsOk(elems, o, env)
    decreases elems
  {
    if elems.Cons? {
      var names := ElemNames(elems);
      assert elems.head.x == names[0];
      assert names[1..] == ElemNames(elems.tail);
      NoElemPinned(elems.tail, o, env);
    }
  }
}
