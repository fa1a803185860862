/** The induction over runs behind the row-lock audit. */
module RowLockRuns {
  import opened Options
  import opened RowLockLanguage
  import opened RowLockAudit
  import opened RowLockFacts
  import opened RowLockHeap
  import opened RowLockLocals
  import opened RowLockSound

  // ----- Single steps

  lemma WriteKeeps(fr: Frame, c: Cover, x: string, d: Data, st: State)
    requires Kept(fr, c, st) && WriteOk(Var(x), fr)
    ensures Kept(fr, c, Write(x, d, st).st)
  {
  }

  /** The frame still holds when only the heap has changed, by nothing it relies on. */
  lemma KeptOn(fr: Frame, c: Cover, st: State, post: State)
    requires Kept(fr, c, st) && post.store == st.store && post.locks <= c.locks && Keeps(c.props, st, post)
    ensures Kept(fr, c, post)
  {
    HoldsOn(fr, st, c.props, post.heap);
    assert Holds(fr, post);
  }

  lemma WritePropKeeps(fr: Frame, c: Cover, x: string, p: string, d: Data, st: State)
    requires Kept(fr, c, st) && p !in c.props
    ensures Kept(fr, c, WriteProp(x, p, d, st).st)
  {
    KeptOn(fr, c, st, WriteProp(x, p, d, st).st);
  }

  lemma ChooseKeeps(w: World, c: Cover, fr: Frame, st: State)
    requires Quiet(w, c.props) && Kept(fr, c, st)
    ensures Kept(fr, c, Choose(w, st).st)
  {
    ChooseGrows(w, c.props, st);
    KeptOn(fr, c, st, Choose(w, st).st);
  }

  lemma ReadKnown(fr: Frame, c: Cover, w: World, x: string, p: string, optional: bool, st: State)
    requires Quiet(w, c.props) && Kept(fr, c, st)
    ensures var r := Read(w, x, p, optional, st);
            Kept(fr, c, r.st) && (r.out.Done? ==> Known(Prop(x, p, optional), fr.env, r.out.d))
  {
    ChooseKeeps(w, c, fr, st);
    if x in st.store {
      assert Agrees(st.store[x].d, x, fr.env, st.heap);
    }
  }

  lemma SubWrites(a: set<Key>, b: set<Key>, fr: Frame)
    requires a <= b && WritesOk(b, fr)
    ensures WritesOk(a, fr)
  {
  }

  // ----- Expressions

  ghost predicate Sound(fr: Frame, c: Cover, e: Expr, r: Run) {
    Kept(fr, c, r.st) && (r.out.Done? ==> Known(e, fr.env, r.out.d))
  }

  lemma {:induction false} EvalSound(fuel: nat, w: World, c: Cover, fr: Frame, e: Expr, st: State)
    requires Covers(w, c) && Auditable(w.program) && Ready(w, c, fr, e) && Kept(fr, c, st)
    ensures Sound(fr, c, e, Eval(fuel, w, e, st))
    decreases fuel, 1
  {
    if fuel > 0 {
      match e
      case Lit(v) =>
      case Name(x) =>
        if x in st.store {
          assert Agrees(st.store[x].d, x, fr.env, st.heap);
        }
      case Prop(x, p, optional) => ReadKnown(fr, c, w, x, p, optional, st);
      case Not(e1) => EvalSound(fuel - 1, w, c, fr, e1, st);
      case And(l, r) => LogicSound(fuel, w, c, fr, e, st);
      case Or(l, r) => LogicSound(fuel, w, c, fr, e, st);
      case Nullish(l, r) => LogicSound(fuel, w, c, fr, e, st);
      case Equal(l, r, negated) => EqualSound(fuel, w, c, fr, e, st);
      case Cond(_, _, _) => CondSound(fuel, w, c, fr, e, st);
      case Record(fields) => EvalFieldsSound(fuel - 1, w, c, fr, fields, map[], st);
      case Call(fn, args) => CallSound(fuel, w, c, fr, e, st);
      case Assign(_, _) => AssignSound(fuel, w, c, fr, e, st);
      case AssignProp(_, _, _) => AssignPropSound(fuel, w, c, fr, e, st);
      case Lock(_, _) => LockSound(fuel, w, c, fr, e, st);
      case Opaque(parts) =>
        EvalAllSound(fuel - 1, w, c, fr, parts, st);
        ChooseKeeps(w, c, fr, EvalAll(fuel - 1, w, parts, st).st);
    }
  }

  lemma {:induction false} AssignSound(fuel: nat, w: World, c: Cover, fr: Frame, e: Expr, st: State)
    requires fuel > 0 && e.Assign?
    requires Covers(w, c) && Auditable(w.program) && Ready(w, c, fr, e) && Kept(fr, c, st)
    ensures Sound(fr, c, e, Eval(fuel, w, e, st))
    decreases fuel, 0
  {
    SubWrites(Live(e.e, fr.env), Live(e, fr.env), fr);
    EvalSound(fuel - 1, w, c, fr, e.e, st);
    var a := Eval(fuel - 1, w, e.e, st);
    if a.out.Done? {
      assert Var(e.x) in Live(e, fr.env);
      WriteKeeps(fr, c, e.x, a.out.d, a.st);
    }
  }

  lemma {:induction false} AssignPropSound(fuel: nat, w: World, c: Cover, fr: Frame, e: Expr, st: State)
    requires fuel > 0 && e.AssignProp?
    requires Covers(w, c) && Auditable(w.program) && Ready(w, c, fr, e) && Kept(fr, c, st)
    ensures Sound(fr, c, e, Eval(fuel, w, e, st))
    decreases fuel, 0
  {
    SubWrites(Live(e.e, fr.env), Live(e, fr.env), fr);
    EvalSound(fuel - 1, w, c, fr, e.e, st);
    var a := Eval(fuel - 1, w, e.e, st);
    if a.out.Done? {
      assert e.p in Sets(e);
      WritePropKeeps(fr, c, e.x, e.p, a.out.d, a.st);
    }
  }

  lemma {:induction false} LockSound(fuel: nat, w: World, c: Cover, fr: Frame, e: Expr, st: State)
    requires fuel > 0 && e.Lock?
    requires Covers(w, c) && Auditable(w.program) && Ready(w, c, fr, e) && Kept(fr, c, st)
    ensures Sound(fr, c, e, Eval(fuel, w, e, st))
    decreases fuel, 0
  {
    AllowedPlus(Summary({e.site}, []), VisitAll(w.program, e.spans, fr.env), c, w.barriers);
    EvalAllSound(fuel - 1, w, c, fr, e.spans, st);
    var a := EvalAll(fuel - 1, w, e.spans, st);
    ChooseKeeps(w, c, fr, a.st.(locks := a.st.locks + {e.site}));
  }

  lemma {:induction false} LogicSound(fuel: nat, w: World, c: Cover, fr: Frame, e: Expr, st: State)
    requires fuel > 0 && (e.And? || e.Or? || e.Nullish?)
    requires Covers(w, c) && Auditable(w.program) && Ready(w, c, fr, e) && Kept(fr, c, st)
    ensures Sound(fr, c, e, Eval(fuel, w, e, st))
    decreases fuel, 0
  {
    var v := Evaluate(e.l, fr.env);
    var skip := v.Some? && (if e.And? then !Truth(v.value) else if e.Or? then Truth(v.value) else !Absent(v.value));
    if !skip {
      AllowedPlus(Visit(w.program, e.l, fr.env), Visit(w.program, e.r, fr.env), c, w.barriers);
      SubWrites(Live(e.r, fr.env), Live(e, fr.env), fr);
    }
    SubWrites(Live(e.l, fr.env), Live(e, fr.env), fr);
    EvalSound(fuel - 1, w, c, fr, e.l, st);
    var a := Eval(fuel - 1, w, e.l, st);
    if a.out.Done? && !skip {
      EvalSound(fuel - 1, w, c, fr, e.r, a.st);
    }
  }

  lemma {:induction false} EqualSound(fuel: nat, w: World, c: Cover, fr: Frame, e: Expr, st: State)
    requires fuel > 0 && e.Equal?
    requires Covers(w, c) && Auditable(w.program) && Ready(w, c, fr, e) && Kept(fr, c, st)
    ensures Sound(fr, c, e, Eval(fuel, w, e, st))
    decreases fuel, 0
  {
    AllowedPlus(Visit(w.program, e.l, fr.env), Visit(w.program, e.r, fr.env), c, w.barriers);
    EvalSound(fuel - 1, w, c, fr, e.l, st);
    var a := Eval(fuel - 1, w, e.l, st);
    if a.out.Done? {
      EvalSound(fuel - 1, w, c, fr, e.r, a.st);
    }
  }

  lemma {:induction false} CondSound(fuel: nat, w: World, c: Cover, fr: Frame, e: Expr, st: State)
    requires fuel > 0 && e.Cond?
    requires Covers(w, c) && Auditable(w.program) && Ready(w, c, fr, e) && Kept(fr, c, st)
    ensures Sound(fr, c, e, Eval(fuel, w, e, st))
    decreases fuel, 0
  {
    var v := Evaluate(e.c, fr.env);
    var yes := if v.None? || Truth(v.value) then Visit(w.program, e.t, fr.env) else NOTHING;
    var no := if v.None? || !Truth(v.value) then Visit(w.program, e.f, fr.env) else NOTHING;
    AllowedPlus(Visit(w.program, e.c, fr.env), yes.Plus(no), c, w.barriers);
    AllowedPlus(yes, no, c, w.barriers);
    SubWrites(Live(e.c, fr.env), Live(e, fr.env), fr);
    EvalSound(fuel - 1, w, c, fr, e.c, st);
    var a := Eval(fuel - 1, w, e.c, st);
    if a.out.Done? {
      if Truthy(a.out.d) {
        SubWrites(Live(e.t, fr.env), Live(e, fr.env), fr);
        EvalSound(fuel - 1, w, c, fr, e.t, a.st);
      } else {
        SubWrites(Live(e.f, fr.env), Live(e, fr.env), fr);
        EvalSound(fuel - 1, w, c, fr, e.f, a.st);
      }
    }
  }

  lemma {:induction false} EvalAllSound(fuel: nat, w: World, c: Cover, fr: Frame, es: List<Expr>, st: State)
    requires Covers(w, c) && Auditable(w.program) && ReadyAll(w, c, fr, es) && Kept(fr, c, st)
    ensures var r := EvalAll(fuel, w, es, st);
            Kept(fr, c, r.st) && (r.out.Done? ==> ArgsKnown(es, fr.env, r.ds, r.st.heap, c.props))
    decreases fuel, 1
  {
    if fuel > 0 && es.Cons? {
      AllowedPlus(Visit(w.program, es.head, fr.env), VisitAll(w.program, es.tail, fr.env), c, w.barriers);
      ArgSound(fuel - 1, w, c, fr, es.head, st);
      var a := Eval(fuel - 1, w, es.head, st);
      if a.out.Done? {
        EvalAllSound(fuel - 1, w, c, fr, es.tail, a.st);
        EvalAllGrows(fuel - 1, w, c.props, es.tail, a.st);
        ArgKnownOn(es.head, fr.env, a.out.d, a.st.heap, EvalAll(fuel - 1, w, es.tail, a.st).st.heap, c.props);
      }
    }
  }

  lemma {:induction false} ArgSound(fuel: nat, w: World, c: Cover, fr: Frame, e: Expr, st: State)
    requires Covers(w, c) && Auditable(w.program) && Ready(w, c, fr, e) && Kept(fr, c, st)
    ensures var r := Eval(fuel, w, e, st);
            Sound(fr, c, e, r) && (r.out.Done? ==> ArgKnown(e, fr.env, r.out.d, r.st.heap, c.props))
    decreases fuel, 2
  {
    EvalSound(fuel, w, c, fr, e, st);
    if fuel > 0 && e.Record? {
      EvalFieldsSound(fuel - 1, w, c, fr, e.fields, map[], st);
    }
    if fuel > 0 && e.Name? && e.x in st.store {
      assert Agrees(st.store[e.x].d, e.x, fr.env, st.heap);
    }
  }

  lemma {:induction false} EvalFieldsSound(fuel: nat, w: World, c: Cover, fr: Frame, fs: List<Field>,
                                           acc: Object, st: State)
    requires Covers(w, c) && Auditable(w.program) && ReadyFields(w, c, fr, fs) && Kept(fr, c, st)
    ensures var r := EvalFields(fuel, w, fs, acc, st);
            && Kept(fr, c, r.st)
            && (r.out.Done? ==>
                  IsObject(r.out.d, r.st.heap) && FieldsAdded(fs, fr.env, acc, r.st.heap[r.out.d.a], c.props))
    decreases fuel, 1
  {
    if fuel > 0 {
      if fs.Nil? {
        KeptOn(fr, c, st, EvalFields(fuel, w, fs, acc, st).st);
      } else {
        AllowedPlus(Visit(w.program, fs.head.value, fr.env), VisitFields(w.program, fs.tail, fr.env), c, w.barriers);
        EvalSound(fuel - 1, w, c, fr, fs.head.value, st);
        var a := Eval(fuel - 1, w, fs.head.value, st);
        if a.out.Done? {
          EvalFieldsSound(fuel - 1, w, c, fr, fs.tail, acc[fs.head.name := a.out.d], a.st);
          FindFieldNamed(fs.tail, fs.head.name);
        }
      }
    }
  }

  /** The fields, on top of those that were there. */
  ghost predicate FieldsAdded(fs: List<Field>, env: Env, acc: Object, o: Object, props: set<string>) {
    forall key <- props ::
      match FindField(fs, key)
      case None => Slot(o, key) == Slot(acc, key)
      case Some(e) => Known(e, env, Slot(o, key))
  }

  // ----- Calls

  lemma {:induction false} CallSound(fuel: nat, w: World, c: Cover, fr: Frame, e: Expr, st: State)
    requires fuel > 0 && e.Call?
    requires Covers(w, c) && Auditable(w.program) && Ready(w, c, fr, e) && Kept(fr, c, st)
    ensures Sound(fr, c, e, Eval(fuel, w, e, st))
    decreases fuel, 0
  {
    var own := if e.fn < |w.program| then Summary({}, [Target(e.fn, CalleeEnv(w.program[e.fn].params, e.args, fr.env))])
      else NOTHING;
    AllowedPlus(own, VisitAll(w.program, e.args, fr.env), c, w.barriers);
    EvalAllSound(fuel - 1, w, c, fr, e.args, st);
    var a := EvalAll(fuel - 1, w, e.args, st);
    if a.out.Done? && e.fn < |w.program| {
      assert own.callees[0] in own.callees;
      InvokeSound(fuel - 1, w, c, fr, e.fn, e.args, a.ds, a.st);
    } else if a.out.Done? {
      ChooseKeeps(w, c, fr, a.st);
    }
  }

  lemma {:induction false} InvokeSound(fuel: nat, w: World, c: Cover, fr: Frame, fn: nat, args: List<Expr>,
                                       ds: List<Data>, st: State)
    requires Covers(w, c) && Auditable(w.program) && Kept(fr, c, st) && fn < |w.program|
    requires WfExprs(args) && ArgsKnown(args, fr.env, ds, st.heap, c.props)
    requires Followed(Target(fn, CalleeEnv(w.program[fn].params, args, fr.env)), c, w.barriers)
    ensures Kept(fr, c, Invoke(fuel, w, fn, ds, st).st)
    decreases fuel, 0
  {
    if fuel > 0 && fn !in w.barriers {
      var f := w.program[fn];
      assert f in w.program;
      var t := Target(fn, CalleeEnv(f.params, args, fr.env));
      if t in c.targets {
        TargetArgs(f, args, fr.env, ds, st.heap, c.props);
        BodySound(fuel - 1, w, c, t, ds, st);
      } else {
        EmptyArgs(f, ds, st.heap);
        BodySound(fuel - 1, w, c, Target(fn, map[]), ds, st);
      }
    }
    InvokeGrows(fuel, w, c.props, fn, ds, st);
    KeptOn(fr, c, st, Invoke(fuel, w, fn, ds, st).st);
  }

  lemma TargetArgs(f: Function, args: List<Expr>, caller: Env, ds: List<Data>, heap: Heap, props: set<string>)
    requires Tidy(f) && WfExprs(args) && ArgsKnown(args, caller, ds, heap, props)
    requires Relied(f, CalleeEnv(f.params, args, caller)) <= props
    ensures ParamsOk(f.params, ds, WithLocals(f, CalleeEnv(f.params, args, caller)), heap)
  {
    var base := CalleeEnv(f.params, args, caller);
    CalleePinNames(f.params, args, caller);
    forall k | k in WithLocals(f, base) && k.x in ParamNames(f.params)
      ensures k in base && base[k] == WithLocals(f, base)[k]
    {
      PinsFromCall(f, base, k);
    }
    ReliedMembers(f, base, props);
    CalleeOk(f.params, args, caller, ds, WithLocals(f, base), heap, props);
  }

  lemma ReliedMembers(f: Function, base: Env, props: set<string>)
    requires Relied(f, base) <= props
    ensures MembersIn(WithLocals(f, base), props) && ParamKeys(f.params, WithLocals(f, base)) <= props
  {
    var env := WithLocals(f, base);
    forall k | k in env && k.Member?
      ensures k.p in props
    {
      assert k.p in MemberKeys(env);
    }
  }

  lemma EmptyArgs(f: Function, ds: List<Data>, heap: Heap)
    requires Tidy(f)
    ensures ParamsOk(f.params, ds, WithLocals(f, map[]), heap)
  {
    forall k | k in WithLocals(f, map[])
      ensures k.x !in ParamNames(f.params)
    {
      if k.x in ParamNames(f.params) {
        PinsFromCall(f, map[], k);
      }
    }
    NothingPinned(f.params, ds, WithLocals(f, map[]), heap);
  }

  lemma ParamsNotConst(f: Function, base: Env)
    requires Tidy(f)
    ensures forall x <- ParamNames(f.params) :: x !in FrameOf(f, base).consts
  {
  }

  /** A covered specialization, run on values that fit its pins, takes covered locks only. */
  lemma {:induction false} BodySound(fuel: nat, w: World, c: Cover, t: Target, ds: List<Data>, st: State)
    requires Covers(w, c) && Auditable(w.program) && t in c.targets && st.locks <= c.locks
    requires ParamsOk(w.program[t.fn].params, ds, WithLocals(w.program[t.fn], t.env), st.heap)
    ensures RunBody(fuel, w, w.program[t.fn], ds, st).st.locks <= c.locks
    decreases fuel, 0
  {
    if fuel > 0 {
      var f := w.program[t.fn];
      assert f in w.program;
      var fr := FrameOf(f, t.env);
      AllowedPlus(VisitParams(w.program, f.params, fr.env), Statements(w.program, f.body, fr.env).sum, c, w.barriers);
      ParamsNotConst(f, t.env);
      ReliedMembers(f, t.env, c.props);
      assert FunctionSets(f) <= ProgramSets(w.program);
      var start := st.(store := map[]);
      BindSound(fuel - 1, w, c, fr, f.params, ds, start);
      var bound := Bind(fuel - 1, w, f.params, ds, start);
      if bound.out.Done? {
        forall b | b in BodyBinders(f.body)
          ensures BinderOk(b, fr)
        {
          BindersHold(f, t.env, b);
        }
        forall k | k in LiveBody(f.body, fr.env)
          ensures WriteOk(k, fr)
        {
          WritesHold(f, t.env, k);
        }
        ExecAllSound(fuel - 1, w, c, fr, f.body, bound.st);
      }
    }
  }

  // ----- Binding parameters

  lemma {:induction false} OrInitSound(fuel: nat, w: World, c: Cover, fr: Frame, d: Data, init: Option<Expr>, st: State)
    requires Covers(w, c) && Auditable(w.program) && WfInit(init) && InitSets(init) !! c.props && Kept(fr, c, st)
    requires Allowed(VisitInit(w.program, init, fr.env), c, w.barriers)
    ensures var r := OrInit(fuel, w, d, init, st);
            && Kept(fr, c, r.st)
            && (r.out.Done? && !(d == UNDEFINED && init.Some?) ==> r.out.d == d)
            && (r.out.Done? && d == UNDEFINED && init.Some? ==> Known(init.value, map[], r.out.d))
    decreases fuel, 0
  {
    if fuel > 0 && d == UNDEFINED && init.Some? {
      assert Live(init.value, fr.env) == {};
      EvalSound(fuel - 1, w, c, fr, init.value, st);
      if Evaluate(init.value, map[]).Some? {
        EvaluateMonotone(init.value, map[], fr.env);
      }
    }
  }

  lemma ParamsSplit(params: List<Param>, consts: set<string>)
    requires params.Cons? && forall x <- ParamNames(params) :: x !in consts
    ensures forall x <- NamesOf(params.head) :: x !in consts
    ensures forall x <- ParamNames(params.tail) :: x !in consts
  {
    assert forall x <- NamesOf(params.head) :: x in ParamNames(params);
    assert forall x <- ParamNames(params.tail) :: x in ParamNames(params);
  }

  lemma ElemsSplit(elems: List<Elem>, consts: set<string>)
    requires elems.Cons? && forall x <- ElemNames(elems) :: x !in consts
    ensures elems.head.x !in consts && forall x <- ElemNames(elems.tail) :: x !in consts
  {
    assert elems.head.x in ElemNames(elems);
    assert forall x <- ElemNames(elems.tail) :: x in ElemNames(elems);
  }

  lemma {:induction false} BindSound(fuel: nat, w: World, c: Cover, fr: Frame, params: List<Param>, ds: List<Data>,
                                     st: State)
    requires Covers(w, c) && Auditable(w.program) && WfParams(params) && ParamsSets(params) !! c.props
             && Kept(fr, c, st)
    requires Allowed(VisitParams(w.program, params, fr.env), c, w.barriers) && ParamKeys(params, fr.env) <= c.props
    requires ParamsOk(params, ds, fr.env, st.heap) && (forall x <- ParamNames(params) :: x !in fr.consts)
    ensures Kept(fr, c, Bind(fuel, w, params, ds, st).st)
    decreases fuel, 0
  {
    if fuel > 0 && params.Cons? {
      AllowedPlus(VisitParam(w.program, params.head, fr.env), VisitParams(w.program, params.tail, fr.env), c,
        w.barriers);
      ParamsSplit(params, fr.consts);
      var d := if ds.Nil? then UNDEFINED else ds.head;
      BindOneSound(fuel - 1, w, c, fr, params.head, d, st);
      var a := BindOne(fuel - 1, w, params.head, d, st);
      if a.out.Done? {
        var rest := if ds.Nil? then Nil else ds.tail;
        assert ParamsOk(params.tail, rest, fr.env, a.st.heap) by {
          BindOneGrows(fuel - 1, w, c.props, params.head, d, st);
          ParamsOn(params.tail, rest, fr.env, st.heap, a.st.heap, c.props);
        }
        BindSound(fuel - 1, w, c, fr, params.tail, rest, a.st);
      }
    }
  }

  lemma {:induction false} BindOneSound(fuel: nat, w: World, c: Cover, fr: Frame, param: Param, d: Data, st: State)
    requires Covers(w, c) && Auditable(w.program) && WfParams(Cons(param, Nil)) && ParamSets(param) !! c.props
    requires Allowed(VisitParam(w.program, param, fr.env), c, w.barriers) && Kept(fr, c, st)
    requires ParamKeys(Cons(param, Nil), fr.env) <= c.props
    requires ParamOk(param, d, fr.env, st.heap) && (forall x <- NamesOf(param) :: x !in fr.consts)
    ensures Kept(fr, c, BindOne(fuel, w, param, d, st).st)
    decreases fuel, 1
  {
    if fuel > 0 {
      match param
      case Plain(x, init) => PlainSound(fuel, w, c, fr, param, d, st);
      case Pattern(elems, empty) =>
        if d == UNDEFINED && empty {
          var made := st.(heap := st.heap + [map[]]);
          KeptOn(fr, c, st, made);
          BindElemsSound(fuel - 1, w, c, fr, elems, Ref(|st.heap|), made);
        } else if !Missing(d) {
          BindElemsSound(fuel - 1, w, c, fr, elems, d, st);
        }
    }
  }

  lemma {:induction false} PlainSound(fuel: nat, w: World, c: Cover, fr: Frame, param: Param, d: Data, st: State)
    requires fuel > 0 && param.Plain? && param.x !in fr.consts
    requires Covers(w, c) && Auditable(w.program) && WfInit(param.init) && InitSets(param.init) !! c.props
    requires Allowed(VisitInit(w.program, param.init, fr.env), c, w.barriers) && Kept(fr, c, st)
    requires ParamOk(param, d, fr.env, st.heap)
    ensures Kept(fr, c, BindOne(fuel, w, param, d, st).st)
    decreases fuel, 0
  {
    OrInitSound(fuel - 1, w, c, fr, d, param.init, st);
    OrInitGrows(fuel - 1, w, c.props, d, param.init, st);
    var a := OrInit(fuel - 1, w, d, param.init, st);
    CarriesOn(d, param.x, fr.env, c.props, st.heap, a.st.heap);
    if a.out.Done? {
      assert Agrees(a.out.d, param.x, fr.env, a.st.heap);
    }
  }

  ghost function Unpacked(w: World, whole: Data, key: string, st: State): Run {
    if IsObject(whole, st.heap) then Run(Done(Get(whole, key, st.heap)), st) else Choose(w, st)
  }

  lemma UnpackedSound(w: World, c: Cover, fr: Frame, elem: Elem, whole: Data, st: State)
    requires Quiet(w, c.props) && Kept(fr, c, st) && ElemsOk(Cons(elem, Nil), ObjectOf(whole, st.heap), fr.env)
    ensures var got := Unpacked(w, whole, elem.key, st);
            && Kept(fr, c, got.st) && Keeps(c.props, st, got.st)
            && (got.out.Done? && Var(elem.x) in fr.env ==> DefaultOk(got.out.d, elem.init, fr.env[Var(elem.x)]))
  {
    ChooseKeeps(w, c, fr, st);
    ChooseGrows(w, c.props, st);
  }

  lemma BoundKeeps(fr: Frame, c: Cover, x: string, d: Data, st: State)
    requires Kept(fr, c, st) && Agrees(d, x, fr.env, st.heap) && x !in fr.consts
    ensures Kept(fr, c, st.(store := st.store[x := Binding(d, false)]))
  {
  }

  /** One element of a pattern is bound to what the frame pins for it, and the object stays fit for the rest. */
  lemma {:induction false} ElemSound(fuel: nat, w: World, c: Cover, fr: Frame, elems: List<Elem>, whole: Data, got: Run,
                                     st: State)
    requires Covers(w, c) && Auditable(w.program) && elems.Cons? && WfInit(elems.head.init)
    requires InitSets(elems.head.init) !! c.props && ElemKeys(elems, fr.env) <= c.props
    requires Allowed(VisitInit(w.program, elems.head.init, fr.env), c, w.barriers) && elems.head.x !in fr.consts
    requires got.out.Done? && Kept(fr, c, got.st) && Keeps(c.props, st, got.st)
    requires Var(elems.head.x) in fr.env ==> DefaultOk(got.out.d, elems.head.init, fr.env[Var(elems.head.x)])
    requires ElemsOk(elems, ObjectOf(whole, st.heap), fr.env)
    ensures var a := OrInit(fuel, w, got.out.d, elems.head.init, got.st);
            && Kept(fr, c, a.st)
            && (a.out.Done? ==>
                  && Kept(fr, c, a.st.(store := a.st.store[elems.head.x := Binding(a.out.d, false)]))
                  && ElemsOk(elems.tail, ObjectOf(whole, a.st.heap), fr.env))
    decreases fuel, 1
  {
    var elem := elems.head;
    OrInitSound(fuel, w, c, fr, got.out.d, elem.init, got.st);
    OrInitGrows(fuel, w, c.props, got.out.d, elem.init, got.st);
    var a := OrInit(fuel, w, got.out.d, elem.init, got.st);
    if a.out.Done? {
      GrewOn(c.props, st.heap, got.st.heap, a.st.heap);
      ElemsOn(elems.tail, ObjectOf(whole, st.heap), ObjectOf(whole, a.st.heap), fr.env, c.props);
      BoundKeeps(fr, c, elem.x, a.out.d, a.st);
    }
  }

  lemma {:induction false} BindElemsSound(fuel: nat, w: World, c: Cover, fr: Frame, elems: List<Elem>, whole: Data,
                                          st: State)
    requires Covers(w, c) && Auditable(w.program) && WfElems(elems) && ElemSets(elems) !! c.props && Kept(fr, c, st)
    requires Allowed(VisitElems(w.program, elems, fr.env), c, w.barriers) && ElemKeys(elems, fr.env) <= c.props
    requires ElemsOk(elems, ObjectOf(whole, st.heap), fr.env) && (forall x <- ElemNames(elems) :: x !in fr.consts)
    ensures Kept(fr, c, BindElems(fuel, w, elems, whole, st).st)
    decreases fuel, 0
  {
    if fuel > 0 && elems.Cons? {
      var elem := elems.head;
      AllowedPlus(VisitInit(w.program, elem.init, fr.env), VisitElems(w.program, elems.tail, fr.env), c, w.barriers);
      ElemsSplit(elems, fr.consts);
      var got := Unpacked(w, whole, elem.key, st);
      UnpackedSound(w, c, fr, elem, whole, st);
      if got.out.Done? {
        ElemSound(fuel - 1, w, c, fr, elems, whole, got, st);
        var a := OrInit(fuel - 1, w, got.out.d, elem.init, got.st);
        if a.out.Done? {
          BindElemsSound(fuel - 1, w, c, fr, elems.tail, whole,
            a.st.(store := a.st.store[elem.x := Binding(a.out.d, false)]));
        }
      }
    }
  }

  // ----- Statements

  ghost predicate BindersOk(binders: seq<Binder>, fr: Frame) {
    forall b <- binders :: BinderOk(b, fr)
  }

  ghost predicate Runnable(fr: Frame, c: Cover, s: Stmt) {
    && WfStmt(s) && StmtSets(s) !! c.props && Decided(s, fr.env)
    && WritesOk(LiveStmt(s, fr.env), fr) && BindersOk(Binders(s), fr)
  }

  ghost predicate RunnableAll(fr: Frame, c: Cover, ss: List<Stmt>) {
    && WfStmts(ss) && BodySets(ss) !! c.props && DecidedAll(ss, fr.env)
    && WritesOk(LiveBody(ss, fr.env), fr) && BindersOk(BodyBinders(ss), fr)
  }

  ghost predicate RunnableClauses(fr: Frame, c: Cover, clauses: List<Clause>) {
    && WfClauses(clauses) && ClauseSets(clauses) !! c.props && DecidedClauses(clauses, fr.env)
    && WritesOk(LiveClauses(clauses, fr.env), fr) && BindersOk(ClauseBinders(clauses), fr)
  }

  /** A statement's run is covered, and one that never completes did not. */
  ghost predicate StmtSound(fr: Frame, c: Cover, exits: bool, r: Run) {
    Kept(fr, c, r.st) && (exits ==> !r.out.Done?)
  }

  lemma SubBinders(a: seq<Binder>, b: seq<Binder>, fr: Frame)
    requires BindersOk(a + b, fr)
    ensures BindersOk(a, fr) && BindersOk(b, fr)
  {
    assert forall x <- a :: x in a + b;
    assert forall x <- b :: x in a + b;
  }

  lemma EnterKeeps(fr: Frame, c: Cover, names: set<string>, st: State)
    requires Kept(fr, c, st)
    ensures Kept(fr, c, Enter(names, st))
  {
  }

  lemma {:induction false} ExecAllSound(fuel: nat, w: World, c: Cover, fr: Frame, ss: List<Stmt>, st: State)
    requires Covers(w, c) && Auditable(w.program) && RunnableAll(fr, c, ss) && Kept(fr, c, st)
    requires Allowed(Statements(w.program, ss, fr.env).sum, c, w.barriers)
    ensures StmtSound(fr, c, Statements(w.program, ss, fr.env).exits, ExecAll(fuel, w, ss, st))
    decreases fuel, 0
  {
    if fuel > 0 && ss.Cons? {
      SubBinders(Binders(ss.head), BodyBinders(ss.tail), fr);
      var first := Statement(w.program, ss.head, fr.env);
      if !first.exits {
        AllowedPlus(first.sum, Statements(w.program, ss.tail, fr.env).sum, c, w.barriers);
      }
      ExecSound(fuel - 1, w, c, fr, ss.head, st);
      var a := Exec(fuel - 1, w, ss.head, st);
      if a.out.Done? {
        ExecAllSound(fuel - 1, w, c, fr, ss.tail, a.st);
      }
    }
  }

  /** Leaving a scope brings back what the outer names held. */
  lemma LeaveKeeps(fr: Frame, c: Cover, names: set<string>, st: State, r: Run)
    requires Kept(fr, c, st) && Kept(fr, c, r.st) && Keeps(c.props, st, r.st)
    ensures Kept(fr, c, Restore(names, st.store, r).st)
  {
    HoldsOn(fr, st, c.props, r.st.heap);
    var post := Restore(names, st.store, r).st;
    forall x | x in post.store
      ensures Agrees(post.store[x].d, x, fr.env, post.heap) && (x in fr.consts ==> post.store[x].fixed)
    {
      if x in names {
        assert post.store[x] == st.(heap := r.st.heap).store[x];
      } else {
        assert post.store[x] == r.st.store[x];
      }
    }
  }

  /** A nested list of statements in its own scope. */
  lemma {:induction false} ScopeSound(fuel: nat, w: World, c: Cover, fr: Frame, ss: List<Stmt>, st: State)
    requires Covers(w, c) && Auditable(w.program) && RunnableAll(fr, c, ss) && Kept(fr, c, st)
    requires Allowed(Statements(w.program, ss, fr.env).sum, c, w.barriers)
    ensures StmtSound(fr, c, Statements(w.program, ss, fr.env).exits, ExecScope(fuel, w, ss, st))
    decreases fuel, 1
  {
    var inside := Enter(Declared(ss), st);
    EnterKeeps(fr, c, Declared(ss), st);
    ExecAllSound(fuel, w, c, fr, ss, inside);
    ExecAllGrows(fuel, w, c.props, ss, inside);
    LeaveKeeps(fr, c, Declared(ss), st, ExecAll(fuel, w, ss, inside));
  }

  lemma {:induction false} ExecSound(fuel: nat, w: World, c: Cover, fr: Frame, s: Stmt, st: State)
    requires Covers(w, c) && Auditable(w.program) && Runnable(fr, c, s) && Kept(fr, c, st)
    requires Allowed(Statement(w.program, s, fr.env).sum, c, w.barriers)
    ensures StmtSound(fr, c, Statement(w.program, s, fr.env).exits, Exec(fuel, w, s, st))
    decreases fuel, 1
  {
    if fuel > 0 {
      match s
      case ExprStmt(_) => LeafSound(fuel, w, c, fr, s, s.e, st);
      case Declare(_, _, init) => LeafSound(fuel, w, c, fr, s, init, st);
      case Return(e) => LeafSound(fuel, w, c, fr, s, e, st);
      case Throw(e) => LeafSound(fuel, w, c, fr, s, e, st);
      case Unpack(fixed, y, picks) =>
        if y in st.store && !Missing(st.store[y].d) {
          assert Agrees(st.store[y].d, y, fr.env, st.heap);
          PickAllKeeps(w, c, fr, fixed, y, st.store[y].d, picks, st);
        }
      case Block(body) => ScopeSound(fuel - 1, w, c, fr, body, st);
      case If(_, _, _) => IfSound(fuel, w, c, fr, s, st);
      case Break =>
      case Continue =>
      case Switch(_, _) => SwitchSound(fuel, w, c, fr, s, st);
      case While(_, _) => WhileSound(fuel, w, c, fr, s, st);
      case Try(_, _, _) => TrySound(fuel, w, c, fr, s, st);
    }
  }

  /** Statements that evaluate one expression. */
  lemma {:induction false} LeafSound(fuel: nat, w: World, c: Cover, fr: Frame, s: Stmt, e: Expr, st: State)
    requires fuel > 0 && (s == ExprStmt(e) || s == Return(e) || s == Throw(e) || (s.Declare? && s.init == e))
    requires Covers(w, c) && Auditable(w.program) && Runnable(fr, c, s) && Kept(fr, c, st)
    requires Allowed(Statement(w.program, s, fr.env).sum, c, w.barriers)
    ensures StmtSound(fr, c, Statement(w.program, s, fr.env).exits, Exec(fuel, w, s, st))
    decreases fuel, 0
  {
    assert Statement(w.program, s, fr.env).sum == Visit(w.program, e, fr.env);
    assert LiveStmt(s, fr.env) == Live(e, fr.env) && WfExpr(e);
    EvalSound(fuel - 1, w, c, fr, e, st);
    var a := Eval(fuel - 1, w, e, st);
    if s.Declare? && a.out.Done? {
      assert Binders(s) == [Local(s.fixed, s.x, e)];
      assert BinderOk(Local(s.fixed, s.x, e), fr);
      assert Agrees(a.out.d, s.x, fr.env, a.st.heap);
    }
  }

  lemma {:induction false} PickAllKeeps(w: World, c: Cover, fr: Frame, fixed: bool, y: string, whole: Data,
                                        picks: List<Pick>, st: State)
    requires Quiet(w, c.props) && BindersOk(PickBinders(fixed, y, picks), fr) && Kept(fr, c, st)
    requires Carries(whole, y, fr.env, st.heap)
    ensures Kept(fr, c, PickAll(w, fixed, whole, picks, st).st)
    decreases picks
  {
    if picks.Cons? {
      var pick := picks.head;
      var b := Picking(fixed, y, pick.key, pick.x);
      SubBinders([b], PickBinders(fixed, y, picks.tail), fr);
      assert b in [b];
      assert BinderOk(b, fr);
      var got := if IsObject(whole, st.heap) then Run(Done(Get(whole, pick.key, st.heap)), st) else Choose(w, st);
      ChooseKeeps(w, c, fr, st);
      ChooseGrows(w, c.props, st);
      if got.out.Done? {
        CarriesOn(whole, y, fr.env, c.props, st.heap, got.st.heap);
        assert Agrees(got.out.d, pick.x, fr.env, got.st.heap);
        PickAllKeeps(w, c, fr, fixed, y, whole, picks.tail,
          got.st.(store := got.st.store[pick.x := Binding(got.out.d, fixed)]));
      }
    }
  }

  lemma {:induction false} IfSound(fuel: nat, w: World, c: Cover, fr: Frame, s: Stmt, st: State)
    requires fuel > 0 && s.If?
    requires Covers(w, c) && Auditable(w.program) && Runnable(fr, c, s) && Kept(fr, c, st)
    requires Allowed(Statement(w.program, s, fr.env).sum, c, w.barriers)
    ensures StmtSound(fr, c, Statement(w.program, s, fr.env).exits, Exec(fuel, w, s, st))
    decreases fuel, 0
  {
    var v := Evaluate(s.c, fr.env);
    var yes, no := Statement(w.program, s.t, fr.env), Statement(w.program, s.f, fr.env);
    var inner := if v.None? then yes.sum.Plus(no.sum) else if Truth(v.value) then yes.sum else no.sum;
    AllowedPlus(Visit(w.program, s.c, fr.env), inner, c, w.barriers);
    if v.None? {
      AllowedPlus(yes.sum, no.sum, c, w.barriers);
    }
    SubBinders(Binders(s.t), Binders(s.f), fr);
    SubWrites(Live(s.c, fr.env), LiveStmt(s, fr.env), fr);
    EvalSound(fuel - 1, w, c, fr, s.c, st);
    var a := Eval(fuel - 1, w, s.c, st);
    if a.out.Done? {
      if Truthy(a.out.d) {
        SubWrites(LiveStmt(s.t, fr.env), LiveStmt(s, fr.env), fr);
        ExecSound(fuel - 1, w, c, fr, s.t, a.st);
      } else {
        SubWrites(LiveStmt(s.f, fr.env), LiveStmt(s, fr.env), fr);
        ExecSound(fuel - 1, w, c, fr, s.f, a.st);
      }
    }
  }

  lemma {:induction false} WhileSound(fuel: nat, w: World, c: Cover, fr: Frame, s: Stmt, st: State)
    requires fuel > 0 && s.While?
    requires Covers(w, c) && Auditable(w.program) && Runnable(fr, c, s) && Kept(fr, c, st)
    requires Allowed(Statement(w.program, s, fr.env).sum, c, w.barriers)
    ensures StmtSound(fr, c, Statement(w.program, s, fr.env).exits, Exec(fuel, w, s, st))
    decreases fuel, 0
  {
    assert Statement(w.program, s, fr.env).sum == VisitStmt(w.program, s, fr.env);
    AllowedPlus(Visit(w.program, s.c, fr.env), VisitStmt(w.program, s.loop, fr.env), c, w.barriers);
    VisitCovers(w.program, s.loop, fr.env);
    EvalSound(fuel - 1, w, c, fr, s.c, st);
    var a := Eval(fuel - 1, w, s.c, st);
    if a.out.Done? && Truthy(a.out.d) {
      ExecSound(fuel - 1, w, c, fr, s.loop, a.st);
      var r := Exec(fuel - 1, w, s.loop, a.st);
      if r.out.Done? || r.out.Continued? {
        ExecSound(fuel - 1, w, c, fr, s, r.st);
      }
    }
  }

  lemma {:induction false} TrySound(fuel: nat, w: World, c: Cover, fr: Frame, s: Stmt, st: State)
    requires fuel > 0 && s.Try?
    requires Covers(w, c) && Auditable(w.program) && Runnable(fr, c, s) && Kept(fr, c, st)
    requires Allowed(Statement(w.program, s, fr.env).sum, c, w.barriers)
    ensures StmtSound(fr, c, Statement(w.program, s, fr.env).exits, Exec(fuel, w, s, st))
    decreases fuel, 0
  {
    var body, handler, finalizer :=
      Statements(w.program, s.body, fr.env), Statements(w.program, s.handler, fr.env),
        Statements(w.program, s.finalizer, fr.env);
    assert Statement(w.program, s, fr.env).sum == VisitStmt(w.program, s, fr.env);
    AllowedPlus(body.sum, handler.sum.Plus(finalizer.sum), c, w.barriers);
    AllowedPlus(handler.sum, finalizer.sum, c, w.barriers);
    SubBinders(BodyBinders(s.body) + BodyBinders(s.handler), BodyBinders(s.finalizer), fr);
    SubBinders(BodyBinders(s.body), BodyBinders(s.handler), fr);
    SubWrites(LiveBody(s.body, fr.env), LiveStmt(s, fr.env), fr);
    SubWrites(LiveBody(s.handler, fr.env), LiveStmt(s, fr.env), fr);
    SubWrites(LiveBody(s.finalizer, fr.env), LiveStmt(s, fr.env), fr);
    ScopeSound(fuel - 1, w, c, fr, s.body, st);
    var a := ExecScope(fuel - 1, w, s.body, st);
    if a.out.Threw? {
      ScopeSound(fuel - 1, w, c, fr, s.handler, a.st);
    }
    var b := if a.out.Threw? then ExecScope(fuel - 1, w, s.handler, a.st) else a;
    if !b.out.Cut? {
      ScopeSound(fuel - 1, w, c, fr, s.finalizer, b.st);
    }
  }

  // ----- The generic visit covers the ordered walk

  ghost predicate Part(a: Summary, b: Summary) {
    a.locks <= b.locks && forall t <- a.callees :: t in b.callees
  }

  lemma PartAllowed(a: Summary, b: Summary, c: Cover, barriers: set<nat>)
    requires Part(a, b) && Allowed(b, c, barriers)
    ensures Allowed(a, c, barriers)
  {
  }

  lemma {:induction false} VisitCovers(p: Program, s: Stmt, env: Env)
    ensures Part(Statement(p, s, env).sum, VisitStmt(p, s, env))
    decreases s, 1
  {
    match s
    case If(c, t, f) =>
      VisitCovers(p, t, env);
      VisitCovers(p, f, env);
    case Switch(d, clauses) => ClausesCovered(p, clauses, env);
      var v := Evaluate(d, env);
      if v.Some? {
        StartWithin(clauses, clauses, v.value, env);
        FromCovered(p, Start(clauses, clauses, v.value, env), clauses, false, env);
      }
    case _ =>
  }

  lemma {:induction false} StmtsCovered(p: Program, ss: List<Stmt>, env: Env)
    ensures Part(Statements(p, ss, env).sum, VisitStmts(p, ss, env))
    decreases ss, 0
  {
    if ss.Cons? {
      VisitCovers(p, ss.head, env);
      StmtsCovered(p, ss.tail, env);
    }
  }

  lemma {:induction false} ClausesCovered(p: Program, clauses: List<Clause>, env: Env)
    ensures Part(WalkClauses(p, clauses, env), VisitClauses(p, clauses, env))
    decreases clauses, 0
  {
    if clauses.Cons? {
      StmtsCovered(p, clauses.head.body, env);
      ClausesCovered(p, clauses.tail, env);
    }
  }

  /** A clause that is walked as one is walked no further than as a list of statements. */
  lemma {:induction false} ClauseFlowCovered(p: Program, ss: List<Stmt>, env: Env)
    ensures Part(ClauseFlow(p, ss, env).sum, Statements(p, ss, env).sum)
    ensures ClauseFlow(p, ss, env).end.Next? ==> !Statements(p, ss, env).exits
    decreases ss, 0
  {
    if ss.Cons? && !ss.head.Break? && !ss.head.Continue? {
      ClauseFlowCovered(p, ss.tail, env);
      if ss.head.Block? {
        ClauseFlowCovered(p, ss.head.body, env);
      }
    }
  }

  lemma {:induction false} FromCovered(p: Program, from: List<Clause>, all: List<Clause>, mayLeave: bool, env: Env)
    requires Suffix(from, all)
    ensures Part(WalkThrough(p, from, mayLeave, env).sum, VisitClauses(p, all, env))
    decreases all, 0
  {
    if from == all {
      if from.Cons? {
        ClauseFlowCovered(p, from.head.body, env);
        StmtsCovered(p, from.head.body, env);
        FromCovered(p, from.tail, from.tail, mayLeave || LeavesSwitch(from.head.body), env);
      }
    } else {
      FromCovered(p, from, all.tail, mayLeave, env);
    }
  }

  // ----- Switches

  lemma {:induction false} NoBreak(fuel: nat, w: World, s: Stmt, st: State)
    requires !Leaves(s)
    ensures !Exec(fuel, w, s, st).out.Broke?
    decreases fuel, 1
  {
    if fuel > 0 {
      match s
      case Unpack(fixed, y, picks) =>
        if y in st.store && !Missing(st.store[y].d) {
          PickAllEnds(w, fixed, st.store[y].d, picks, st);
        }
      case Block(body) => NoBreakAll(fuel - 1, w, body, Enter(Declared(body), st));
      case If(c, t, f) =>
        var a := Eval(fuel - 1, w, c, st);
        if a.out.Done? {
          NoBreak(fuel - 1, w, if Truthy(a.out.d) then t else f, a.st);
        }
      case While(c, loop) =>
        var a := Eval(fuel - 1, w, c, st);
        if a.out.Done? && Truthy(a.out.d) {
          NoBreak(fuel - 1, w, s, Exec(fuel - 1, w, loop, a.st).st);
        }
      case Try(body, handler, finalizer) => NoBreakTry(fuel, w, s, st);
      case _ =>
    }
  }

  lemma {:induction false} NoBreakTry(fuel: nat, w: World, s: Stmt, st: State)
    requires fuel > 0 && s.Try? && !Leaves(s)
    ensures !Exec(fuel, w, s, st).out.Broke?
    decreases fuel, 0
  {
    NoBreakAll(fuel - 1, w, s.body, Enter(Declared(s.body), st));
    var a := ExecScope(fuel - 1, w, s.body, st);
    NoBreakAll(fuel - 1, w, s.handler, Enter(Declared(s.handler), a.st));
    var b := if a.out.Threw? then ExecScope(fuel - 1, w, s.handler, a.st) else a;
    NoBreakAll(fuel - 1, w, s.finalizer, Enter(Declared(s.finalizer), b.st));
  }

  lemma {:induction false} NoBreakAll(fuel: nat, w: World, ss: List<Stmt>, st: State)
    requires !LeavesSwitch(ss)
    ensures !ExecAll(fuel, w, ss, st).out.Broke?
    decreases fuel, 0
  {
    if fuel > 0 && ss.Cons? {
      NoBreak(fuel - 1, w, ss.head, st);
      NoBreakAll(fuel - 1, w, ss.tail, Exec(fuel - 1, w, ss.head, st).st);
    }
  }

  lemma {:induction false} PickAllEnds(w: World, fixed: bool, whole: Data, picks: List<Pick>, st: State)
    ensures var out := PickAll(w, fixed, whole, picks, st).out; out.Done? || out.Threw?
    decreases picks
  {
    if picks.Cons? {
      var got :=
        if IsObject(whole, st.heap) then Run(Done(Get(whole, picks.head.key, st.heap)), st) else Choose(w, st);
      if got.out.Done? {
        PickAllEnds(w, fixed, whole, picks.tail,
          got.st.(store := got.st.store[picks.head.x := Binding(got.out.d, fixed)]));
      }
    }
  }

  /** An expression that the environment decides changes nothing when it is run. */
  lemma {:induction false} DecidedPure(fuel: nat, w: World, fr: Frame, e: Expr, st: State)
    requires Evaluate(e, fr.env).Some? && Holds(fr, st)
    ensures var r := Eval(fuel, w, e, st); r.st == st && (r.out.Done? ==> r.out.d == Prim(Evaluate(e, fr.env).value))
    decreases fuel
  {
    if fuel > 0 {
      match e
      case Name(x) =>
        if x in st.store {
          assert Agrees(st.store[x].d, x, fr.env, st.heap);
        }
      case Prop(x, p, optional) =>
        if x in st.store {
          assert Agrees(st.store[x].d, x, fr.env, st.heap);
        }
      case Not(e1) => DecidedPure(fuel - 1, w, fr, e1, st);
      case And(l, r) =>
        DecidedPure(fuel - 1, w, fr, l, st);
        if Truth(Evaluate(l, fr.env).value) { DecidedPure(fuel - 1, w, fr, r, st); }
      case Or(l, r) =>
        DecidedPure(fuel - 1, w, fr, l, st);
        if !Truth(Evaluate(l, fr.env).value) { DecidedPure(fuel - 1, w, fr, r, st); }
      case Nullish(l, r) =>
        DecidedPure(fuel - 1, w, fr, l, st);
        if Absent(Evaluate(l, fr.env).value) { DecidedPure(fuel - 1, w, fr, r, st); }
      case Equal(l, r, _) =>
        DecidedPure(fuel - 1, w, fr, l, st);
        DecidedPure(fuel - 1, w, fr, r, st);
      case Cond(c, t, f) =>
        DecidedPure(fuel - 1, w, fr, c, st);
        DecidedPure(fuel - 1, w, fr, if Truth(Evaluate(c, fr.env).value) then t else f, st);
      case _ =>
    }
  }

  /** With decided labels a run starts where the audit's walk does. */
  lemma {:induction false} FindDecided(fuel: nat, w: World, fr: Frame, v: Value, clauses: List<Clause>,
                                       all: List<Clause>, st: State)
    requires Labelled(clauses, fr.env) && Suffix(clauses, all) && Holds(fr, st)
    ensures var r := FindClause(fuel, w, Prim(v), clauses, all, st);
            r.st == st && (r.out.Done? ==> Suffix(r.rest, all) && r.rest == Start(clauses, all, v, fr.env))
    decreases fuel
  {
    if fuel > 0 {
      if clauses.Nil? {
        DefaultWithin(all, all);
      } else {
        TailSuffix(clauses, all);
        if clauses.head.test.Some? {
          DecidedPure(fuel - 1, w, fr, clauses.head.test.value, st);
        }
        FindDecided(fuel - 1, w, fr, v, clauses.tail, all, st);
      }
    }
  }

  /** When what is switched on is runtime data, the labels are run like any expression. */
  lemma {:induction false} FindSound(fuel: nat, w: World, c: Cover, fr: Frame, d: Data, clauses: List<Clause>,
                                     all: List<Clause>, st: State)
    requires Covers(w, c) && Auditable(w.program) && RunnableClauses(fr, c, clauses) && Kept(fr, c, st)
    requires Suffix(clauses, all) && Allowed(WalkClauses(w.program, clauses, fr.env), c, w.barriers)
    ensures var r := FindClause(fuel, w, d, clauses, all, st);
            Kept(fr, c, r.st) && (r.out.Done? ==> Suffix(r.rest, all))
    decreases fuel, 0
  {
    if fuel > 0 {
      if clauses.Nil? {
        DefaultWithin(all, all);
      } else {
        TailSuffix(clauses, all);
        ClauseRunnable(fr, c, clauses);
        var test, body := TestVisit(w.program, clauses.head, fr.env),
          Statements(w.program, clauses.head.body, fr.env).sum;
        var rest := WalkClauses(w.program, clauses.tail, fr.env);
        AllowedPlus(test, body.Plus(rest), c, w.barriers);
        AllowedPlus(body, rest, c, w.barriers);
        if clauses.head.test.None? {
          FindSound(fuel - 1, w, c, fr, d, clauses.tail, all, st);
        } else {
          var e := clauses.head.test.value;
          SubWrites(Live(e, fr.env), LiveClauses(clauses, fr.env), fr);
          EvalSound(fuel - 1, w, c, fr, e, st);
          var a := Eval(fuel - 1, w, e, st);
          if a.out.Done? {
            FindSound(fuel - 1, w, c, fr, d, clauses.tail, all, a.st);
          }
        }
      }
    }
  }

  lemma {:induction false} SuffixRunnable(fr: Frame, c: Cover, part: List<Clause>, all: List<Clause>)
    requires Suffix(part, all) && RunnableClauses(fr, c, all)
    ensures RunnableClauses(fr, c, part)
    decreases all
  {
    if part != all {
      SubBinders(BodyBinders(all.head.body), ClauseBinders(all.tail), fr);
      SubWrites(LiveClauses(all.tail, fr.env), LiveClauses(all, fr.env), fr);
      SuffixRunnable(fr, c, part, all.tail);
    }
  }

  lemma ClauseRunnable(fr: Frame, c: Cover, clauses: List<Clause>)
    requires clauses.Cons? && RunnableClauses(fr, c, clauses)
    ensures RunnableAll(fr, c, clauses.head.body) && RunnableClauses(fr, c, clauses.tail)
  {
    SubBinders(BodyBinders(clauses.head.body), ClauseBinders(clauses.tail), fr);
    SubWrites(LiveBody(clauses.head.body, fr.env), LiveClauses(clauses, fr.env), fr);
    SubWrites(LiveClauses(clauses.tail, fr.env), LiveClauses(clauses, fr.env), fr);
  }

  lemma {:induction false} SuffixWalked(p: Program, part: List<Clause>, all: List<Clause>, env: Env)
    requires Suffix(part, all)
    ensures Part(WalkClauses(p, part, env), WalkClauses(p, all, env))
    decreases all
  {
    if part != all {
      SuffixWalked(p, part, all.tail, env);
    }
  }

  lemma {:induction false} ClausesSound(fuel: nat, w: World, c: Cover, fr: Frame, clauses: List<Clause>, st: State)
    requires Covers(w, c) && Auditable(w.program) && RunnableClauses(fr, c, clauses) && Kept(fr, c, st)
    requires Allowed(WalkClauses(w.program, clauses, fr.env), c, w.barriers)
    ensures Kept(fr, c, ExecClauses(fuel, w, clauses, st).st)
    decreases fuel, 0
  {
    if fuel > 0 && clauses.Cons? {
      ClauseRunnable(fr, c, clauses);
      var test, body, rest :=
        TestVisit(w.program, clauses.head, fr.env), Statements(w.program, clauses.head.body, fr.env).sum,
          WalkClauses(w.program, clauses.tail, fr.env);
      AllowedPlus(test, body.Plus(rest), c, w.barriers);
      AllowedPlus(body, rest, c, w.barriers);
      ExecAllSound(fuel - 1, w, c, fr, clauses.head.body, st);
      ClausesSound(fuel - 1, w, c, fr, clauses.tail, ExecAll(fuel - 1, w, clauses.head.body, st).st);
    }
  }

  /** One clause of a known switch: a walk that ends it did so because no run passes its end. */
  lemma {:induction false} ClauseFlowSound(fuel: nat, w: World, c: Cover, fr: Frame, ss: List<Stmt>, st: State)
    requires Covers(w, c) && Auditable(w.program) && RunnableAll(fr, c, ss) && Kept(fr, c, st)
    requires Allowed(ClauseFlow(w.program, ss, fr.env).sum, c, w.barriers)
    ensures StmtSound(fr, c, !ClauseFlow(w.program, ss, fr.env).end.Next?, ExecAll(fuel, w, ss, st))
    decreases fuel, 0
  {
    if fuel > 1 && ss.Cons? && !ss.head.Break? && !ss.head.Continue? {
      SubBinders(Binders(ss.head), BodyBinders(ss.tail), fr);
      SubWrites(LiveStmt(ss.head, fr.env), LiveBody(ss, fr.env), fr);
      SubWrites(LiveBody(ss.tail, fr.env), LiveBody(ss, fr.env), fr);
      var first := FirstFlow(w.program, ss.head, fr.env);
      if first.end.Next? {
        AllowedPlus(first.sum, ClauseFlow(w.program, ss.tail, fr.env).sum, c, w.barriers);
      }
      if ss.head.Block? {
        assert Runnable(fr, c, ss.head) && RunnableAll(fr, c, ss.head.body);
        ScopeFlowSound(fuel - 2, w, c, fr, ss.head.body, st);
      } else {
        ExecSound(fuel - 1, w, c, fr, ss.head, st);
      }
      var a := Exec(fuel - 1, w, ss.head, st);
      if a.out.Done? {
        ClauseFlowSound(fuel - 1, w, c, fr, ss.tail, a.st);
      }
    }
  }

  lemma {:induction false} ScopeFlowSound(fuel: nat, w: World, c: Cover, fr: Frame, ss: List<Stmt>, st: State)
    requires Covers(w, c) && Auditable(w.program) && RunnableAll(fr, c, ss) && Kept(fr, c, st)
    requires Allowed(ClauseFlow(w.program, ss, fr.env).sum, c, w.barriers)
    ensures StmtSound(fr, c, !ClauseFlow(w.program, ss, fr.env).end.Next?, ExecScope(fuel, w, ss, st))
    decreases fuel, 1
  {
    var inside := Enter(Declared(ss), st);
    EnterKeeps(fr, c, Declared(ss), st);
    ClauseFlowSound(fuel, w, c, fr, ss, inside);
    ExecAllGrows(fuel, w, c.props, ss, inside);
    LeaveKeeps(fr, c, Declared(ss), st, ExecAll(fuel, w, ss, inside));
  }

  function FirstFlow(p: Program, s: Stmt, env: Env): ClauseEnd {
    if s.Block? then ClauseFlow(p, s.body, env)
    else
      var flow := Statement(p, s, env);
      ClauseEnd(if flow.exits then Exit else Next, flow.sum)
  }

  lemma {:induction false} ThroughSound(fuel: nat, w: World, c: Cover, fr: Frame, clauses: List<Clause>, mayLeave: bool,
                                        st: State)
    requires Covers(w, c) && Auditable(w.program) && RunnableClauses(fr, c, clauses) && Kept(fr, c, st)
    requires Allowed(WalkThrough(w.program, clauses, mayLeave, fr.env).sum, c, w.barriers)
    ensures var r := ExecClauses(fuel, w, clauses, st);
            && Kept(fr, c, r.st)
            && (WalkThrough(w.program, clauses, mayLeave, fr.env).exits ==> !mayLeave && !r.out.Done? && !r.out.Broke?)
    decreases fuel, 0
  {
    if clauses.Cons? {
      ClauseRunnable(fr, c, clauses);
      ExitsStay(w.program, clauses, mayLeave, fr.env);
      var body, rest := clauses.head.body, clauses.tail;
      var flow, leaving := ClauseFlow(w.program, body, fr.env), mayLeave || LeavesSwitch(body);
      if flow.end.Next? {
        AllowedPlus(flow.sum, WalkThrough(w.program, rest, leaving, fr.env).sum, c, w.barriers);
      }
      if fuel > 0 {
        ClauseFlowSound(fuel - 1, w, c, fr, body, st);
        if !LeavesSwitch(body) {
          NoBreakAll(fuel - 1, w, body, st);
        }
        var a := ExecAll(fuel - 1, w, body, st);
        if a.out.Done? {
          ThroughSound(fuel - 1, w, c, fr, rest, leaving, a.st);
        }
      }
    }
  }

  lemma {:induction false} ExitsStay(p: Program, clauses: List<Clause>, mayLeave: bool, env: Env)
    ensures WalkThrough(p, clauses, mayLeave, env).exits ==>
              clauses.Cons? && !mayLeave && !LeavesSwitch(clauses.head.body)
    decreases clauses
  {
    if clauses.Cons? {
      ExitsStay(p, clauses.tail, mayLeave || LeavesSwitch(clauses.head.body), env);
    }
  }

  lemma SwitchReady(w: World, c: Cover, fr: Frame, s: Stmt)
    requires s.Switch? && Runnable(fr, c, s) && Allowed(Statement(w.program, s, fr.env).sum, c, w.barriers)
    ensures Ready(w, c, fr, s.d) && RunnableClauses(fr, c, s.clauses)
    ensures var v := Evaluate(s.d, fr.env);
            && (v.Some? ==> Labelled(s.clauses, fr.env))
            && Allowed(if v.Some? then WalkFrom(w.program, s.clauses, v.value, fr.env).sum
                       else WalkClauses(w.program, s.clauses, fr.env), c, w.barriers)
  {
    var v := Evaluate(s.d, fr.env);
    var inner := if v.Some? then WalkFrom(w.program, s.clauses, v.value, fr.env).sum
                 else WalkClauses(w.program, s.clauses, fr.env);
    AllowedPlus(Visit(w.program, s.d, fr.env), inner, c, w.barriers);
    SubWrites(LiveClauses(s.clauses, fr.env), LiveStmt(s, fr.env), fr);
    SubWrites(Live(s.d, fr.env), LiveStmt(s, fr.env), fr);
  }

  lemma {:induction false} SwitchSound(fuel: nat, w: World, c: Cover, fr: Frame, s: Stmt, st: State)
    requires fuel > 0 && s.Switch?
    requires Covers(w, c) && Auditable(w.program) && Runnable(fr, c, s) && Kept(fr, c, st)
    requires Allowed(Statement(w.program, s, fr.env).sum, c, w.barriers)
    ensures StmtSound(fr, c, Statement(w.program, s, fr.env).exits, Exec(fuel, w, s, st))
    decreases fuel, 0
  {
    SwitchReady(w, c, fr, s);
    EvalSound(fuel - 1, w, c, fr, s.d, st);
    var v, a := Evaluate(s.d, fr.env), Eval(fuel - 1, w, s.d, st);
    if a.out.Done? {
      if v.Some? {
        KnownSwitch(fuel - 1, w, c, fr, s.clauses, v.value, a.st);
      } else {
        OpenSwitch(fuel - 1, w, c, fr, s.clauses, a.out.d, a.st);
      }
    }
  }

  lemma {:induction false} KnownSwitch(fuel: nat, w: World, c: Cover, fr: Frame, clauses: List<Clause>, v: Value,
                                       st: State)
    requires Covers(w, c) && Auditable(w.program) && RunnableClauses(fr, c, clauses) && Kept(fr, c, st)
    requires Labelled(clauses, fr.env) && Allowed(WalkFrom(w.program, clauses, v, fr.env).sum, c, w.barriers)
    ensures StmtSound(fr, c, WalkFrom(w.program, clauses, v, fr.env).exits, ExecSwitch(fuel, w, Prim(v), clauses, st))
    decreases fuel, 1
  {
    var names := ClausesDeclared(clauses);
    var inside := Enter(names, st);
    EnterKeeps(fr, c, names, st);
    FindDecided(fuel, w, fr, v, clauses, clauses, inside);
    var from := FindClause(fuel, w, Prim(v), clauses, clauses, inside);
    if from.out.Done? {
      SuffixRunnable(fr, c, from.rest, clauses);
      ThroughSound(fuel, w, c, fr, from.rest, false, inside);
    }
    SwitchLeaves(fuel, w, c, fr, clauses, Prim(v), st);
  }

  lemma {:induction false} OpenSwitch(fuel: nat, w: World, c: Cover, fr: Frame, clauses: List<Clause>, d: Data,
                                      st: State)
    requires Covers(w, c) && Auditable(w.program) && RunnableClauses(fr, c, clauses) && Kept(fr, c, st)
    requires Allowed(WalkClauses(w.program, clauses, fr.env), c, w.barriers)
    ensures Kept(fr, c, ExecSwitch(fuel, w, d, clauses, st).st)
    decreases fuel, 1
  {
    var names := ClausesDeclared(clauses);
    var inside := Enter(names, st);
    EnterKeeps(fr, c, names, st);
    FindSound(fuel, w, c, fr, d, clauses, clauses, inside);
    var from := FindClause(fuel, w, d, clauses, clauses, inside);
    if from.out.Done? {
      SuffixRunnable(fr, c, from.rest, clauses);
      SuffixWalked(w.program, from.rest, clauses, fr.env);
      PartAllowed(WalkClauses(w.program, from.rest, fr.env), WalkClauses(w.program, clauses, fr.env), c, w.barriers);
      ClausesSound(fuel, w, c, fr, from.rest, from.st);
    }
    SwitchLeaves(fuel, w, c, fr, clauses, d, st);
  }

  /** What is kept inside a switch is kept when it is left. */
  lemma SwitchLeaves(fuel: nat, w: World, c: Cover, fr: Frame, clauses: List<Clause>, d: Data, st: State)
    requires Quiet(w, c.props) && ClauseSets(clauses) !! c.props && Kept(fr, c, st)
    requires var from := FindClause(fuel, w, d, clauses, clauses, Enter(ClausesDeclared(clauses), st));
             && Kept(fr, c, from.st)
             && (from.out.Done? ==> Kept(fr, c, ExecClauses(fuel, w, from.rest, from.st).st))
    ensures Kept(fr, c, ExecSwitch(fuel, w, d, clauses, st).st)
  {
    var names := ClausesDeclared(clauses);
    SwitchGrows(fuel, w, c.props, d, clauses, st);
    var from := FindClause(fuel, w, d, clauses, clauses, Enter(names, st));
    if from.out.Done? {
      LeaveKeeps(fr, c, names, st, ExecClauses(fuel, w, from.rest, from.st));
    } else {
      LeaveKeeps(fr, c, names, st, Run(Stopped(from.out), from.st));
    }
  }
}
