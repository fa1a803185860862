/** Which properties a program assigns, and that its runs leave all others of every object as they were. */
module RowLockHeap {
  import opened Options
  import opened RowLockLanguage

  // ----- The properties that are assigned, through whatever name

  function Sets(e: Expr): set<string> {
    match e
    case Lit(_) => {}
    case Name(_) => {}
    case Prop(_, _, _) => {}
    case Not(e1) => Sets(e1)
    case And(l, r) => Sets(l) + Sets(r)
    case Or(l, r) => Sets(l) + Sets(r)
    case Nullish(l, r) => Sets(l) + Sets(r)
    case Equal(l, r, _) => Sets(l) + Sets(r)
    case Cond(c, t, f) => Sets(c) + Sets(t) + Sets(f)
    case Record(fields) => FieldSets(fields)
    case Call(_, args) => SetsAll(args)
    case Assign(_, e1) => Sets(e1)
    case AssignProp(_, p, e1) => {p} + Sets(e1)
    case Lock(_, spans) => SetsAll(spans)
    case Opaque(parts) => SetsAll(parts)
  }

  function SetsAll(es: List<Expr>): set<string> {
    match es
    case Nil => {}
    case Cons(e, rest) => Sets(e) + SetsAll(rest)
  }

  function FieldSets(fs: List<Field>): set<string> {
    match fs
    case Nil => {}
    case Cons(field, rest) => Sets(field.value) + FieldSets(rest)
  }

  function StmtSets(s: Stmt): set<string> {
    match s
    case ExprStmt(e) => Sets(e)
    case Declare(_, _, init) => Sets(init)
    case Unpack(_, _, _) => {}
    case Block(body) => BodySets(body)
    case If(c, t, f) => Sets(c) + StmtSets(t) + StmtSets(f)
    case Return(e) => Sets(e)
    case Throw(e) => Sets(e)
    case Break => {}
    case Continue => {}
    case Switch(d, clauses) => Sets(d) + ClauseSets(clauses)
    case While(c, loop) => Sets(c) + StmtSets(loop)
    case Try(body, handler, finalizer) => BodySets(body) + BodySets(handler) + BodySets(finalizer)
  }

  function BodySets(ss: List<Stmt>): set<string> {
    match ss
    case Nil => {}
    case Cons(s, rest) => StmtSets(s) + BodySets(rest)
  }

  function ClauseSets(clauses: List<Clause>): set<string> {
    match clauses
    case Nil => {}
    case Cons(clause, rest) => InitSets(clause.test) + BodySets(clause.body) + ClauseSets(rest)
  }

  function InitSets(init: Option<Expr>): set<string> {
    if init.Some? then Sets(init.value) else {}
  }

  function ElemSets(elems: List<Elem>): set<string> {
    match elems
    case Nil => {}
    case Cons(elem, rest) => InitSets(elem.init) + ElemSets(rest)
  }

  function ParamSets(param: Param): set<string> {
    match param
    case Plain(_, init) => InitSets(init)
    case Pattern(elems, _) => ElemSets(elems)
  }

  function ParamsSets(params: List<Param>): set<string> {
    match params
    case Nil => {}
    case Cons(param, rest) => ParamSets(param) + ParamsSets(rest)
  }

  function FunctionSets(f: Function): set<string> {
    ParamsSets(f.params) + BodySets(f.body)
  }

  function ProgramSets(p: Program): set<string> {
    set f, q | f in p && q in FunctionSets(f) :: q
  }

  /** Neither the program nor code out of sight writes these properties. */
  ghost predicate Quiet(w: World, props: set<string>) {
    && ProgramSets(w.program) !! props
    && forall i, j :: 0 <= j < |w.oracle(i).pokes| ==> w.oracle(i).pokes[j].p !in props
  }

  // ----- Objects stay, with these properties as they were

  ghost predicate Grew(props: set<string>, was: Heap, now: Heap) {
    && |was| <= |now|
    && forall a, p :: 0 <= a < |was| && p in props ==> Slot(now[a], p) == Slot(was[a], p)
  }

  lemma GrewOn(props: set<string>, a: Heap, b: Heap, c: Heap)
    requires Grew(props, a, b) && Grew(props, b, c)
    ensures Grew(props, a, c)
  {
  }

  lemma {:induction false} PokesGrow(props: set<string>, heap: Heap, pokes: seq<Poke>)
    requires forall j :: 0 <= j < |pokes| ==> pokes[j].p !in props
    ensures Grew(props, heap, Poked(heap, pokes))
  {
    if pokes != [] {
      PokesGrow(props, heap, pokes[..|pokes| - 1]);
    }
  }

  lemma ChooseGrows(w: World, props: set<string>, st: State)
    requires Quiet(w, props)
    ensures Grew(props, st.heap, Choose(w, st).st.heap)
  {
    var choice := w.oracle(st.tick);
    PokesGrow(props, st.heap + choice.made, choice.pokes);
    GrewOn(props, st.heap, st.heap + choice.made, Poked(st.heap + choice.made, choice.pokes));
  }

  /** The objects stay with these properties, and a lock that was taken stays taken. */
  ghost predicate Keeps(props: set<string>, st: State, post: State) {
    Grew(props, st.heap, post.heap) && st.locks <= post.locks
  }

  lemma {:induction false} EvalGrows(fuel: nat, w: World, props: set<string>, e: Expr, st: State)
    requires Quiet(w, props) && Sets(e) !! props
    ensures Keeps(props, st, Eval(fuel, w, e, st).st)
    decreases fuel, 1
  {
    if fuel > 0 {
      match e
      case Lit(v) =>
      case Name(x) =>
      case Prop(x, p, optional) => ChooseGrows(w, props, st);
      case Not(e1) => EvalGrows(fuel - 1, w, props, e1, st);
      case And(_, _) => LogicGrows(fuel, w, props, e, st);
      case Or(_, _) => LogicGrows(fuel, w, props, e, st);
      case Nullish(_, _) => LogicGrows(fuel, w, props, e, st);
      case Equal(l, r, negated) => BothGrow(fuel - 1, w, props, l, r, st);
      case Cond(_, _, _) => CondGrows(fuel, w, props, e, st);
      case Record(fields) => EvalFieldsGrows(fuel - 1, w, props, fields, map[], st);
      case Call(fn, args) => CallGrows(fuel - 1, w, props, fn, args, st);
      case Assign(x, e1) => EvalGrows(fuel - 1, w, props, e1, st);
      case AssignProp(x, p, e1) => EvalGrows(fuel - 1, w, props, e1, st);
      case Lock(site, spans) => UnseenGrows(fuel - 1, w, props, spans, {site}, st);
      case Opaque(parts) => UnseenGrows(fuel - 1, w, props, parts, {}, st);
    }
  }

  lemma {:induction false} LogicGrows(fuel: nat, w: World, props: set<string>, e: Expr, st: State)
    requires fuel > 0 && (e.And? || e.Or? || e.Nullish?) && Quiet(w, props) && Sets(e) !! props
    ensures Keeps(props, st, Eval(fuel, w, e, st).st)
    decreases fuel, 0
  {
    BothGrow(fuel - 1, w, props, e.l, e.r, st);
  }

  lemma {:induction false} CondGrows(fuel: nat, w: World, props: set<string>, e: Expr, st: State)
    requires fuel > 0 && e.Cond? && Quiet(w, props) && Sets(e) !! props
    ensures Keeps(props, st, Eval(fuel, w, e, st).st)
    decreases fuel, 0
  {
    BothGrow(fuel - 1, w, props, e.c, e.t, st);
    BothGrow(fuel - 1, w, props, e.c, e.f, st);
  }

  lemma {:induction false} CallGrows(fuel: nat, w: World, props: set<string>, fn: nat, args: List<Expr>, st: State)
    requires Quiet(w, props) && SetsAll(args) !! props
    ensures var a := EvalAll(fuel, w, args, st);
            Keeps(props, st, a.st) && Keeps(props, st, Invoke(fuel, w, fn, a.ds, a.st).st)
    decreases fuel, 2
  {
    EvalAllGrows(fuel, w, props, args, st);
    InvokeGrows(fuel, w, props, fn, EvalAll(fuel, w, args, st).ds, EvalAll(fuel, w, args, st).st);
  }

  lemma {:induction false} UnseenGrows(fuel: nat, w: World, props: set<string>, es: List<Expr>, locks: set<nat>,
                                       st: State)
    requires Quiet(w, props) && SetsAll(es) !! props
    ensures var a := EvalAll(fuel, w, es, st);
            Keeps(props, st, a.st) && Keeps(props, st, Choose(w, a.st.(locks := a.st.locks + locks)).st)
            && Choose(w, a.st.(locks := a.st.locks + {})).st.heap == Choose(w, a.st).st.heap
    decreases fuel, 2
  {
    EvalAllGrows(fuel, w, props, es, st);
    var a := EvalAll(fuel, w, es, st);
    ChooseGrows(w, props, a.st.(locks := a.st.locks + locks));
  }

  lemma {:induction false} BothGrow(fuel: nat, w: World, props: set<string>, l: Expr, r: Expr, st: State)
    requires Quiet(w, props) && Sets(l) !! props && Sets(r) !! props
    ensures var a := Eval(fuel, w, l, st);
            Keeps(props, st, a.st) && Keeps(props, st, Eval(fuel, w, r, a.st).st)
    decreases fuel, 2
  {
    EvalGrows(fuel, w, props, l, st);
    EvalGrows(fuel, w, props, r, Eval(fuel, w, l, st).st);
  }

  lemma {:induction false} EvalAllGrows(fuel: nat, w: World, props: set<string>, es: List<Expr>, st: State)
    requires Quiet(w, props) && SetsAll(es) !! props
    ensures Keeps(props, st, EvalAll(fuel, w, es, st).st)
    decreases fuel, 0
  {
    if fuel > 0 && es.Cons? {
      EvalGrows(fuel - 1, w, props, es.head, st);
      EvalAllGrows(fuel - 1, w, props, es.tail, Eval(fuel - 1, w, es.head, st).st);
    }
  }

  lemma {:induction false} EvalFieldsGrows(fuel: nat, w: World, props: set<string>, fs: List<Field>, acc: Object,
                                           st: State)
    requires Quiet(w, props) && FieldSets(fs) !! props
    ensures Keeps(props, st, EvalFields(fuel, w, fs, acc, st).st)
    decreases fuel, 0
  {
    if fuel > 0 && fs.Cons? {
      EvalGrows(fuel - 1, w, props, fs.head.value, st);
      var a := Eval(fuel - 1, w, fs.head.value, st);
      if a.out.Done? {
        EvalFieldsGrows(fuel - 1, w, props, fs.tail, acc[fs.head.name := a.out.d], a.st);
      }
    }
  }

  lemma {:induction false} InvokeGrows(fuel: nat, w: World, props: set<string>, fn: nat, ds: List<Data>, st: State)
    requires Quiet(w, props)
    ensures Keeps(props, st, Invoke(fuel, w, fn, ds, st).st)
    decreases fuel, 0
  {
    if fuel > 0 {
      if fn >= |w.program| {
        ChooseGrows(w, props, st);
      } else {
        assert w.program[fn] in w.program;
        RunBodyGrows(fuel - 1, w, props, w.program[fn], ds, st);
      }
    }
  }

  lemma {:induction false} RunBodyGrows(fuel: nat, w: World, props: set<string>, f: Function, ds: List<Data>, st: State)
    requires Quiet(w, props) && f in w.program
    ensures Keeps(props, st, RunBody(fuel, w, f, ds, st).st)
    decreases fuel, 0
  {
    if fuel > 0 {
      assert FunctionSets(f) !! props;
      BindGrows(fuel - 1, w, props, f.params, ds, st.(store := map[]));
      ExecAllGrows(fuel - 1, w, props, f.body, Bind(fuel - 1, w, f.params, ds, st.(store := map[])).st);
    }
  }

  lemma {:induction false} OrInitGrows(fuel: nat, w: World, props: set<string>, d: Data, init: Option<Expr>, st: State)
    requires Quiet(w, props) && InitSets(init) !! props
    ensures Keeps(props, st, OrInit(fuel, w, d, init, st).st)
    decreases fuel, 0
  {
    if fuel > 0 && init.Some? {
      EvalGrows(fuel - 1, w, props, init.value, st);
    }
  }

  lemma {:induction false} BindGrows(fuel: nat, w: World, props: set<string>, params: List<Param>, ds: List<Data>,
                                     st: State)
    requires Quiet(w, props) && ParamsSets(params) !! props
    ensures Keeps(props, st, Bind(fuel, w, params, ds, st).st)
    decreases fuel, 0
  {
    if fuel > 0 && params.Cons? {
      var d := if ds.Nil? then UNDEFINED else ds.head;
      BindOneGrows(fuel - 1, w, props, params.head, d, st);
      BindGrows(fuel - 1, w, props, params.tail, if ds.Nil? then Nil else ds.tail,
                BindOne(fuel - 1, w, params.head, d, st).st);
    }
  }

  lemma {:induction false} BindOneGrows(fuel: nat, w: World, props: set<string>, param: Param, d: Data, st: State)
    requires Quiet(w, props) && ParamSets(param) !! props
    ensures Keeps(props, st, BindOne(fuel, w, param, d, st).st)
    decreases fuel, 0
  {
    if fuel > 0 {
      match param
      case Plain(x, init) => OrInitGrows(fuel - 1, w, props, d, init, st);
      case Pattern(elems, empty) =>
        BindElemsGrows(fuel - 1, w, props, elems, d, st);
        BindElemsGrows(fuel - 1, w, props, elems, Ref(|st.heap|), st.(heap := st.heap + [map[]]));
    }
  }

  lemma {:induction false} BindElemsGrows(fuel: nat, w: World, props: set<string>, elems: List<Elem>, whole: Data,
                                          st: State)
    requires Quiet(w, props) && ElemSets(elems) !! props
    ensures Keeps(props, st, BindElems(fuel, w, elems, whole, st).st)
    decreases fuel, 0
  {
    if fuel > 0 && elems.Cons? {
      var elem := elems.head;
      ChooseGrows(w, props, st);
      var got := if IsObject(whole, st.heap) then Run(Done(Get(whole, elem.key, st.heap)), st) else Choose(w, st);
      if got.out.Done? {
        OrInitGrows(fuel - 1, w, props, got.out.d, elem.init, got.st);
        var a := OrInit(fuel - 1, w, got.out.d, elem.init, got.st);
        if a.out.Done? {
          BindElemsGrows(fuel - 1, w, props, elems.tail, whole,
                         a.st.(store := a.st.store[elem.x := Binding(a.out.d, false)]));
        }
      }
    }
  }

  lemma {:induction false} PickAllGrows(w: World, props: set<string>, fixed: bool, whole: Data, picks: List<Pick>,
                                        st: State)
    requires Quiet(w, props)
    ensures Keeps(props, st, PickAll(w, fixed, whole, picks, st).st)
    decreases picks
  {
    if picks.Cons? {
      ChooseGrows(w, props, st);
      var pick := picks.head;
      var got := if IsObject(whole, st.heap) then Run(Done(Get(whole, pick.key, st.heap)), st) else Choose(w, st);
      if got.out.Done? {
        PickAllGrows(w, props, fixed, whole, picks.tail,
                     got.st.(store := got.st.store[pick.x := Binding(got.out.d, fixed)]));
      }
    }
  }

  lemma {:induction false} ExecGrows(fuel: nat, w: World, props: set<string>, s: Stmt, st: State)
    requires Quiet(w, props) && StmtSets(s) !! props
    ensures Keeps(props, st, Exec(fuel, w, s, st).st)
    decreases fuel, 0
  {
    if fuel > 0 {
      match s
      case ExprStmt(e) => EvalGrows(fuel - 1, w, props, e, st);
      case Declare(_, _, init) => EvalGrows(fuel - 1, w, props, init, st);
      case Return(e) => EvalGrows(fuel - 1, w, props, e, st);
      case Throw(e) => EvalGrows(fuel - 1, w, props, e, st);
      case Unpack(fixed, y, picks) =>
        if y in st.store {
          PickAllGrows(w, props, fixed, st.store[y].d, picks, st);
        }
      case Block(body) => ScopeGrows(fuel - 1, w, props, body, st);
      case If(c, t, f) =>
        EvalGrows(fuel - 1, w, props, c, st);
        var a := Eval(fuel - 1, w, c, st);
        if a.out.Done? {
          ExecGrows(fuel - 1, w, props, if Truthy(a.out.d) then t else f, a.st);
        }
      case Break =>
      case Continue =>
      case Switch(d, clauses) =>
        EvalGrows(fuel - 1, w, props, d, st);
        var a := Eval(fuel - 1, w, d, st);
        if a.out.Done? {
          SwitchGrows(fuel - 1, w, props, a.out.d, clauses, a.st);
        }
      case While(c, loop) => WhileGrows(fuel - 1, w, props, s, st);
      case Try(body, handler, finalizer) => TryGrows(fuel - 1, w, props, s, st);
    }
  }

  lemma {:induction false} WhileGrows(fuel: nat, w: World, props: set<string>, s: Stmt, st: State)
    requires Quiet(w, props) && s.While? && StmtSets(s) !! props
    ensures var a := Eval(fuel, w, s.c, st);
            var r := Exec(fuel, w, s.loop, a.st);
            Keeps(props, st, a.st) && Keeps(props, st, r.st) && Keeps(props, st, Exec(fuel, w, s, r.st).st)
    decreases fuel, 2
  {
    EvalGrows(fuel, w, props, s.c, st);
    var a := Eval(fuel, w, s.c, st);
    ExecGrows(fuel, w, props, s.loop, a.st);
    ExecGrows(fuel, w, props, s, Exec(fuel, w, s.loop, a.st).st);
  }

  lemma {:induction false} TryGrows(fuel: nat, w: World, props: set<string>, s: Stmt, st: State)
    requires Quiet(w, props) && s.Try? && StmtSets(s) !! props
    ensures var a := ExecScope(fuel, w, s.body, st);
            var b := if a.out.Threw? then ExecScope(fuel, w, s.handler, a.st) else a;
            Keeps(props, st, b.st) && Keeps(props, st, ExecScope(fuel, w, s.finalizer, b.st).st)
    decreases fuel, 2
  {
    ScopeGrows(fuel, w, props, s.body, st);
    var a := ExecScope(fuel, w, s.body, st);
    ScopeGrows(fuel, w, props, s.handler, a.st);
    var b := if a.out.Threw? then ExecScope(fuel, w, s.handler, a.st) else a;
    ScopeGrows(fuel, w, props, s.finalizer, b.st);
  }

  lemma {:induction false} ScopeGrows(fuel: nat, w: World, props: set<string>, ss: List<Stmt>, st: State)
    requires Quiet(w, props) && BodySets(ss) !! props
    ensures Keeps(props, st, ExecScope(fuel, w, ss, st).st)
    decreases fuel, 1
  {
    ExecAllGrows(fuel, w, props, ss, Enter(Declared(ss), st));
  }

  lemma {:induction false} ExecAllGrows(fuel: nat, w: World, props: set<string>, ss: List<Stmt>, st: State)
    requires Quiet(w, props) && BodySets(ss) !! props
    ensures Keeps(props, st, ExecAll(fuel, w, ss, st).st)
    decreases fuel, 0
  {
    if fuel > 0 && ss.Cons? {
      ExecGrows(fuel - 1, w, props, ss.head, st);
      ExecAllGrows(fuel - 1, w, props, ss.tail, Exec(fuel - 1, w, ss.head, st).st);
    }
  }

  lemma {:induction false} SwitchGrows(fuel: nat, w: World, props: set<string>, d: Data, clauses: List<Clause>,
                                       st: State)
    requires Quiet(w, props) && ClauseSets(clauses) !! props
    ensures Keeps(props, st, ExecSwitch(fuel, w, d, clauses, st).st)
    decreases fuel, 1
  {
    var inside := Enter(ClausesDeclared(clauses), st);
    FindClauseGrows(fuel, w, props, d, clauses, clauses, inside);
    var from := FindClause(fuel, w, d, clauses, clauses, inside);
    ExecClausesGrows(fuel, w, props, from.rest, from.st);
  }

  lemma {:induction false} DefaultSets(clauses: List<Clause>)
    ensures ClauseSets(FromDefault(clauses)) <= ClauseSets(clauses)
  {
    if clauses.Cons? {
      DefaultSets(clauses.tail);
    }
  }

  lemma {:induction false} FindClauseGrows(fuel: nat, w: World, props: set<string>, d: Data, clauses: List<Clause>,
                                           all: List<Clause>, st: State)
    requires Quiet(w, props) && ClauseSets(clauses) !! props && ClauseSets(all) !! props
    ensures var r := FindClause(fuel, w, d, clauses, all, st); Keeps(props, st, r.st) && ClauseSets(r.rest) !! props
    decreases fuel, 0
  {
    if fuel > 0 {
      if clauses.Nil? {
        DefaultSets(all);
      } else if clauses.head.test.None? {
        FindClauseGrows(fuel - 1, w, props, d, clauses.tail, all, st);
      } else {
        EvalGrows(fuel - 1, w, props, clauses.head.test.value, st);
        FindClauseGrows(fuel - 1, w, props, d, clauses.tail, all, Eval(fuel - 1, w, clauses.head.test.value, st).st);
      }
    }
  }

  lemma {:induction false} ExecClausesGrows(fuel: nat, w: World, props: set<string>, clauses: List<Clause>, st: State)
    requires Quiet(w, props) && ClauseSets(clauses) !! props
    ensures Keeps(props, st, ExecClauses(fuel, w, clauses, st).st)
    decreases fuel, 0
  {
    if fuel > 0 && clauses.Cons? {
      ExecAllGrows(fuel - 1, w, props, clauses.head.body, st);
      ExecClausesGrows(fuel - 1, w, props, clauses.tail, ExecAll(fuel - 1, w, clauses.head.body, st).st);
    }
  }
}
