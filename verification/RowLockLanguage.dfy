/**
 * The part of TypeScript the row-lock audit reasons about, with a concrete semantics. Runtime data, library
 * calls and everything else the audit does not look into come from an oracle, so quantifying over oracles
 * quantifies over runs. `fuel` bounds the depth of a run; a run that is cut off keeps the locks it took.
 */
module RowLockLanguage {
  import opened Options

  datatype List<+T> = Nil | Cons(head: T, tail: List<T>)

  datatype Value = Undefined | Null | Bool(b: bool) | Num(n: int) | Str(s: string)

  datatype Expr =
    | Lit(v: Value)
    | Name(x: string)
    | Prop(x: string, p: string, optional: bool)
    | Not(e: Expr)
    | And(l: Expr, r: Expr)
    | Or(l: Expr, r: Expr)
    | Nullish(l: Expr, r: Expr)
    | Equal(l: Expr, r: Expr, negated: bool)
    | Cond(c: Expr, t: Expr, f: Expr)
    | Record(fields: List<Field>)
    | Call(fn: nat, args: List<Expr>)
    | Assign(x: string, e: Expr)
    | AssignProp(x: string, p: string, e: Expr)
    | Lock(site: nat, spans: List<Expr>)
    | Opaque(parts: List<Expr>)

  datatype Field = Field(name: string, value: Expr)

  /** `const { key: x } = …` picks. */
  datatype Pick = Pick(key: string, x: string)

  datatype Stmt =
    | ExprStmt(e: Expr)
    | Declare(fixed: bool, x: string, init: Expr)
    | Unpack(fixed: bool, y: string, picks: List<Pick>)
    | Block(body: List<Stmt>)
    | If(c: Expr, t: Stmt, f: Stmt)
    | Return(e: Expr)
    | Throw(e: Expr)
    | Break
    | Continue
    | Switch(d: Expr, clauses: List<Clause>)
    | While(c: Expr, loop: Stmt)
    | Try(body: List<Stmt>, handler: List<Stmt>, finalizer: List<Stmt>)

  datatype Clause = Clause(test: Option<Expr>, body: List<Stmt>)

  /** A parameter, with its initializer; a pattern may have the initializer `{}`. */
  datatype Param = Plain(x: string, init: Option<Expr>) | Pattern(elems: List<Elem>, empty: bool)

  datatype Elem = Elem(key: string, x: string, init: Option<Expr>)

  datatype Function = Function(params: List<Param>, body: List<Stmt>)

  type Program = seq<Function>

  predicate Truth(v: Value) {
    match v
    case Undefined => false
    case Null => false
    case Bool(b) => b
    case Num(n) => n != 0
    case Str(s) => s != ""
  }

  predicate Absent(v: Value) {
    v.Undefined? || v.Null?
  }

  // ----- Concrete runs

  /** Objects have an identity; two names may hold the same one. */
  datatype Data = Prim(v: Value) | Ref(a: nat)

  type Object = map<string, Data>

  type Heap = seq<Object>

  datatype Binding = Binding(d: Data, fixed: bool)

  type Store = map<string, Binding>

  /** A frame's variables, the objects, the position in the oracle and the lock clauses acquired so far. */
  datatype State = State(store: Store, heap: Heap, tick: nat, locks: set<nat>)

  /** A property that code out of sight writes. */
  datatype Poke = Poke(a: nat, p: string, d: Data)

  datatype Given = Give(d: Data) | Raise

  /** What code out of sight gives or throws, the objects it makes and the properties it writes, of any object. */
  datatype Choice = Choice(given: Given, made: seq<Object>, pokes: seq<Poke>)

  /** The program, the functions behind which locks are not counted, and the runtime data of one run. */
  datatype World = World(program: Program, barriers: set<nat>, oracle: nat -> Choice)

  datatype Outcome = Done(d: Data) | Broke | Continued | Returned(d: Data) | Threw | Cut

  datatype Run = Run(out: Outcome, st: State)

  datatype ArgRun = ArgRun(out: Outcome, ds: List<Data>, st: State)

  datatype ClauseRun = ClauseRun(out: Outcome, rest: List<Clause>, st: State)

  const UNDEFINED: Data := Prim(Undefined)

  predicate Truthy(d: Data) {
    d.Ref? || Truth(d.v)
  }

  predicate Missing(d: Data) {
    d.Prim? && Absent(d.v)
  }

  predicate IsObject(d: Data, heap: Heap) {
    d.Ref? && d.a < |heap|
  }

  function Slot(o: Object, p: string): Data {
    if p in o then o[p] else UNDEFINED
  }

  function Get(d: Data, p: string, heap: Heap): Data
    requires IsObject(d, heap)
  {
    Slot(heap[d.a], p)
  }

  function Put(heap: Heap, a: nat, p: string, d: Data): Heap {
    if a < |heap| then heap[a := heap[a][p := d]] else heap
  }

  function Poked(heap: Heap, pokes: seq<Poke>): Heap {
    if pokes == [] then heap
    else
      var last := pokes[|pokes| - 1];
      Put(Poked(heap, pokes[..|pokes| - 1]), last.a, last.p, last.d)
  }

  /** What an expression's abrupt end does to the statement around it. */
  function Stopped(out: Outcome): Outcome {
    if out.Threw? then Threw else Cut
  }

  ghost function Choose(w: World, st: State): Run {
    var choice := w.oracle(st.tick);
    var next := st.(tick := st.tick + 1, heap := Poked(st.heap + choice.made, choice.pokes));
    match choice.given
    case Give(d) => Run(Done(d), next)
    case Raise => Run(Threw, next)
  }

  ghost function Read(w: World, x: string, p: string, optional: bool, st: State): Run {
    if x !in st.store then Run(Threw, st)
    else
      var d := st.store[x].d;
      if IsObject(d, st.heap) then Run(Done(Get(d, p, st.heap)), st)
      else if Missing(d) then Run(if optional then Done(UNDEFINED) else Threw, st)
      else Choose(w, st)
  }

  function Write(x: string, d: Data, st: State): Run {
    if x !in st.store || st.store[x].fixed then Run(Threw, st)
    else Run(Done(d), st.(store := st.store[x := Binding(d, false)]))
  }

  function WriteProp(x: string, p: string, d: Data, st: State): Run {
    if x !in st.store || Missing(st.store[x].d) then Run(Threw, st)
    else if st.store[x].d.Prim? then Run(Done(d), st)
    else Run(Done(d), st.(heap := Put(st.heap, st.store[x].d.a, p, d)))
  }

  ghost function Eval(fuel: nat, w: World, e: Expr, st: State): Run
    decreases fuel
  {
    if fuel == 0 then Run(Cut, st) else
    match e
    case Lit(v) => Run(Done(Prim(v)), st)
    case Name(x) => if x in st.store then Run(Done(st.store[x].d), st) else Run(Threw, st)
    case Prop(x, p, optional) => Read(w, x, p, optional, st)
    case Not(e1) =>
      var r := Eval(fuel - 1, w, e1, st);
      if r.out.Done? then Run(Done(Prim(Bool(!Truthy(r.out.d)))), r.st) else r
    case And(l, r) =>
      var a := Eval(fuel - 1, w, l, st);
      if a.out.Done? && Truthy(a.out.d) then Eval(fuel - 1, w, r, a.st) else a
    case Or(l, r) =>
      var a := Eval(fuel - 1, w, l, st);
      if a.out.Done? && !Truthy(a.out.d) then Eval(fuel - 1, w, r, a.st) else a
    case Nullish(l, r) =>
      var a := Eval(fuel - 1, w, l, st);
      if a.out.Done? && Missing(a.out.d) then Eval(fuel - 1, w, r, a.st) else a
    case Equal(l, r, negated) =>
      var a := Eval(fuel - 1, w, l, st);
      if !a.out.Done? then a else
      var b := Eval(fuel - 1, w, r, a.st);
      if !b.out.Done? then b else
      Run(Done(Prim(Bool((a.out.d == b.out.d) != negated))), b.st)
    case Cond(c, t, f) =>
      var a := Eval(fuel - 1, w, c, st);
      if a.out.Done? then Eval(fuel - 1, w, if Truthy(a.out.d) then t else f, a.st) else a
    case Record(fields) => EvalFields(fuel - 1, w, fields, map[], st)
    case Call(fn, args) =>
      var a := EvalAll(fuel - 1, w, args, st);
      if a.out.Done? then Invoke(fuel - 1, w, fn, a.ds, a.st) else Run(a.out, a.st)
    case Assign(x, e1) =>
      var a := Eval(fuel - 1, w, e1, st);
      if a.out.Done? then Write(x, a.out.d, a.st) else a
    case AssignProp(x, p, e1) =>
      var a := Eval(fuel - 1, w, e1, st);
      if a.out.Done? then WriteProp(x, p, a.out.d, a.st) else a
    case Lock(site, spans) =>
      var a := EvalAll(fuel - 1, w, spans, st);
      if a.out.Done? then Choose(w, a.st.(locks := a.st.locks + {site})) else Run(a.out, a.st)
    case Opaque(parts) =>
      var a := EvalAll(fuel - 1, w, parts, st);
      if a.out.Done? then Choose(w, a.st) else Run(a.out, a.st)
  }

  ghost function EvalAll(fuel: nat, w: World, es: List<Expr>, st: State): ArgRun
    decreases fuel
  {
    if fuel == 0 then ArgRun(Cut, Nil, st) else
    match es
    case Nil => ArgRun(Done(UNDEFINED), Nil, st)
    case Cons(e, rest) =>
      var a := Eval(fuel - 1, w, e, st);
      if !a.out.Done? then ArgRun(a.out, Nil, a.st) else
      var b := EvalAll(fuel - 1, w, rest, a.st);
      ArgRun(b.out, Cons(a.out.d, b.ds), b.st)
  }

  ghost function EvalFields(fuel: nat, w: World, fs: List<Field>, acc: map<string, Data>, st: State): Run
    decreases fuel
  {
    if fuel == 0 then Run(Cut, st) else
    match fs
    case Nil => Run(Done(Ref(|st.heap|)), st.(heap := st.heap + [acc]))
    case Cons(field, rest) =>
      var a := Eval(fuel - 1, w, field.value, st);
      if a.out.Done? then EvalFields(fuel - 1, w, rest, acc[field.name := a.out.d], a.st) else a
  }

  /** A call runs in a frame of its own; the caller's variables come back with it. */
  ghost function Invoke(fuel: nat, w: World, fn: nat, ds: List<Data>, st: State): Run
    decreases fuel
  {
    if fuel == 0 then Run(Cut, st)
    else if fn >= |w.program| then Choose(w, st)
    else
      var r := RunBody(fuel - 1, w, w.program[fn], ds, st);
      var locks := if fn in w.barriers then st.locks else r.st.locks;
      Run(match r.out
          case Returned(d) => Done(d)
          case Threw => Threw
          case Cut => Cut
          case _ => Done(UNDEFINED),
          State(st.store, r.st.heap, r.st.tick, locks))
  }

  ghost function RunBody(fuel: nat, w: World, f: Function, ds: List<Data>, st: State): Run
    decreases fuel
  {
    if fuel == 0 then Run(Cut, st) else
    var bound := Bind(fuel - 1, w, f.params, ds, st.(store := map[]));
    if bound.out.Done? then ExecAll(fuel - 1, w, f.body, bound.st) else Run(Stopped(bound.out), bound.st)
  }

  /** The value of an initializer where one applies. */
  ghost function OrInit(fuel: nat, w: World, d: Data, init: Option<Expr>, st: State): Run
    decreases fuel
  {
    if fuel == 0 then Run(Cut, st)
    else if d == UNDEFINED && init.Some? then Eval(fuel - 1, w, init.value, st)
    else Run(Done(d), st)
  }

  ghost function Bind(fuel: nat, w: World, params: List<Param>, ds: List<Data>, st: State): Run
    decreases fuel
  {
    if fuel == 0 then Run(Cut, st) else
    match params
    case Nil => Run(Done(UNDEFINED), st)
    case Cons(param, rest) =>
      var d := if ds.Nil? then UNDEFINED else ds.head;
      var a := BindOne(fuel - 1, w, param, d, st);
      if a.out.Done? then Bind(fuel - 1, w, rest, if ds.Nil? then Nil else ds.tail, a.st) else a
  }

  ghost function BindOne(fuel: nat, w: World, param: Param, d: Data, st: State): Run
    decreases fuel
  {
    if fuel == 0 then Run(Cut, st) else
    match param
    case Plain(x, init) =>
      var a := OrInit(fuel - 1, w, d, init, st);
      if a.out.Done? then Run(a.out, a.st.(store := a.st.store[x := Binding(a.out.d, false)])) else a
    case Pattern(elems, empty) =>
      if d == UNDEFINED && empty then BindElems(fuel - 1, w, elems, Ref(|st.heap|), st.(heap := st.heap + [map[]]))
      else if Missing(d) then Run(Threw, st) else BindElems(fuel - 1, w, elems, d, st)
  }

  ghost function BindElems(fuel: nat, w: World, elems: List<Elem>, whole: Data, st: State): Run
    decreases fuel
  {
    if fuel == 0 then Run(Cut, st) else
    match elems
    case Nil => Run(Done(UNDEFINED), st)
    case Cons(elem, rest) =>
      var got := if IsObject(whole, st.heap) then Run(Done(Get(whole, elem.key, st.heap)), st) else Choose(w, st);
      if !got.out.Done? then got else
      var a := OrInit(fuel - 1, w, got.out.d, elem.init, got.st);
      if !a.out.Done? then a else
      BindElems(fuel - 1, w, rest, whole, a.st.(store := a.st.store[elem.x := Binding(a.out.d, false)]))
  }

  /** The names a list of statements declares in its own scope. */
  function Declared(ss: List<Stmt>): set<string> {
    match ss
    case Nil => {}
    case Cons(s, rest) => DeclaredBy(s) + Declared(rest)
  }

  function DeclaredBy(s: Stmt): set<string> {
    match s
    case Declare(_, x, _) => {x}
    case Unpack(_, _, picks) => Picked(picks)
    case _ => {}
  }

  function Picked(picks: List<Pick>): set<string> {
    match picks
    case Nil => {}
    case Cons(pick, rest) => {pick.x} + Picked(rest)
  }

  function ClausesDeclared(clauses: List<Clause>): set<string> {
    match clauses
    case Nil => {}
    case Cons(clause, rest) => Declared(clause.body) + ClausesDeclared(rest)
  }

  /** Entering a scope, its names are not initialized yet. */
  function Enter(names: set<string>, st: State): State {
    st.(store := st.store - names)
  }

  /** Leaving a scope, its names are what they were outside. */
  function Restore(names: set<string>, outer: Store, r: Run): Run {
    r.(st := r.st.(store := (r.st.store - names) + (map x | x in outer && x in names :: outer[x])))
  }

  ghost function Exec(fuel: nat, w: World, s: Stmt, st: State): Run
    decreases fuel
  {
    if fuel == 0 then Run(Cut, st) else
    match s
    case ExprStmt(e) =>
      var a := Eval(fuel - 1, w, e, st);
      if a.out.Done? then a else Run(Stopped(a.out), a.st)
    case Declare(fixed, x, init) =>
      var a := Eval(fuel - 1, w, init, st);
      if a.out.Done? then Run(a.out, a.st.(store := a.st.store[x := Binding(a.out.d, fixed)]))
      else Run(Stopped(a.out), a.st)
    case Unpack(fixed, y, picks) =>
      if y !in st.store || Missing(st.store[y].d) then Run(Threw, st)
      else PickAll(w, fixed, st.store[y].d, picks, st)
    case Block(body) => ExecScope(fuel - 1, w, body, st)
    case If(c, t, f) =>
      var a := Eval(fuel - 1, w, c, st);
      if a.out.Done? then Exec(fuel - 1, w, if Truthy(a.out.d) then t else f, a.st) else Run(Stopped(a.out), a.st)
    case Return(e) =>
      var a := Eval(fuel - 1, w, e, st);
      if a.out.Done? then Run(Returned(a.out.d), a.st) else Run(Stopped(a.out), a.st)
    case Throw(e) =>
      var a := Eval(fuel - 1, w, e, st);
      if a.out.Done? then Run(Threw, a.st) else Run(Stopped(a.out), a.st)
    case Break => Run(Broke, st)
    case Continue => Run(Continued, st)
    case Switch(d, clauses) =>
      var a := Eval(fuel - 1, w, d, st);
      if a.out.Done? then ExecSwitch(fuel - 1, w, a.out.d, clauses, a.st) else Run(Stopped(a.out), a.st)
    case While(c, loop) =>
      var a := Eval(fuel - 1, w, c, st);
      if !a.out.Done? then Run(Stopped(a.out), a.st)
      else if !Truthy(a.out.d) then Run(Done(UNDEFINED), a.st)
      else
        var r := Exec(fuel - 1, w, loop, a.st);
        if r.out.Done? || r.out.Continued? then Exec(fuel - 1, w, s, r.st)
        else if r.out.Broke? then Run(Done(UNDEFINED), r.st)
        else r
    case Try(body, handler, finalizer) =>
      var a := ExecScope(fuel - 1, w, body, st);
      var b := if a.out.Threw? then ExecScope(fuel - 1, w, handler, a.st) else a;
      if b.out.Cut? then b else
      var c := ExecScope(fuel - 1, w, finalizer, b.st);
      if c.out.Done? then Run(b.out, c.st) else c
  }

  ghost function PickAll(w: World, fixed: bool, whole: Data, picks: List<Pick>, st: State): Run
    decreases picks
  {
    match picks
    case Nil => Run(Done(UNDEFINED), st)
    case Cons(pick, rest) =>
      var got := if IsObject(whole, st.heap) then Run(Done(Get(whole, pick.key, st.heap)), st) else Choose(w, st);
      if !got.out.Done? then Run(Threw, got.st) else
      PickAll(w, fixed, whole, rest, got.st.(store := got.st.store[pick.x := Binding(got.out.d, fixed)]))
  }

  ghost function ExecSwitch(fuel: nat, w: World, d: Data, clauses: List<Clause>, st: State): Run
    decreases fuel, 1
  {
    var names := ClausesDeclared(clauses);
    var from := FindClause(fuel, w, d, clauses, clauses, Enter(names, st));
    if !from.out.Done? then Restore(names, st.store, Run(Stopped(from.out), from.st)) else
    var r := Restore(names, st.store, ExecClauses(fuel, w, from.rest, from.st));
    if r.out.Broke? then Run(Done(UNDEFINED), r.st) else r
  }

  /** A list of statements in a scope of its own. */
  ghost function ExecScope(fuel: nat, w: World, ss: List<Stmt>, st: State): Run
    decreases fuel, 1
  {
    Restore(Declared(ss), st.store, ExecAll(fuel, w, ss, Enter(Declared(ss), st)))
  }

  ghost function ExecAll(fuel: nat, w: World, ss: List<Stmt>, st: State): Run
    decreases fuel, 0
  {
    if fuel == 0 then Run(Cut, st) else
    match ss
    case Nil => Run(Done(UNDEFINED), st)
    case Cons(s, rest) =>
      var a := Exec(fuel - 1, w, s, st);
      if a.out.Done? then ExecAll(fuel - 1, w, rest, a.st) else a
  }

  /** Tries the labels in order; with no match the default clause is next, wherever it stands. */
  ghost function FindClause(fuel: nat, w: World, d: Data, clauses: List<Clause>, all: List<Clause>,
                            st: State): ClauseRun
    decreases fuel, 0
  {
    if fuel == 0 then ClauseRun(Cut, Nil, st) else
    match clauses
    case Nil => ClauseRun(Done(UNDEFINED), FromDefault(all), st)
    case Cons(clause, rest) =>
      if clause.test.None? then FindClause(fuel - 1, w, d, rest, all, st) else
      var a := Eval(fuel - 1, w, clause.test.value, st);
      if !a.out.Done? then ClauseRun(a.out, Nil, a.st) else
      if a.out.d == d then ClauseRun(Done(UNDEFINED), clauses, a.st) else FindClause(fuel - 1, w, d, rest, all, a.st)
  }

  function FromDefault(clauses: List<Clause>): List<Clause> {
    match clauses
    case Nil => Nil
    case Cons(clause, rest) => if clause.test.None? then clauses else FromDefault(rest)
  }

  /** Falls through from clause to clause. */
  ghost function ExecClauses(fuel: nat, w: World, clauses: List<Clause>, st: State): Run
    decreases fuel, 0
  {
    if fuel == 0 then Run(Cut, st) else
    match clauses
    case Nil => Run(Done(UNDEFINED), st)
    case Cons(clause, rest) =>
      var a := ExecAll(fuel - 1, w, clause.body, st);
      if a.out.Done? then ExecClauses(fuel - 1, w, rest, a.st) else a
  }
}
