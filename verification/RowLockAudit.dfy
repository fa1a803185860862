/** The row-lock audit itself: what it knows, what it prunes and what it reports for one specialized function. */
module RowLockAudit {
  import opened Options
  import opened RowLockLanguage

  /** Environments are keyed by a bare name or by a name and a property. */
  datatype Key = Var(x: string) | Member(x: string, p: string)

  type Env = map<Key, Value>

  // ----- Evaluation

  function Evaluate(e: Expr, env: Env): Option<Value> {
    match e
    case Lit(v) => Some(v)
    case Name(x) => if Var(x) in env then Some(env[Var(x)]) else None
    case Prop(x, p, optional) =>
      if Member(x, p) in env then Some(env[Member(x, p)])
      else if optional && Var(x) in env && Absent(env[Var(x)]) then Some(Undefined)
      else None
    case Not(e1) =>
      var v := Evaluate(e1, env);
      if v.Some? then Some(Bool(!Truth(v.value))) else None
    case And(l, r) =>
      var v := Evaluate(l, env);
      if v.Some? && !Truth(v.value) then v else if v.Some? then Evaluate(r, env) else None
    case Or(l, r) =>
      var v := Evaluate(l, env);
      if v.Some? && Truth(v.value) then v else if v.Some? then Evaluate(r, env) else None
    case Nullish(l, r) =>
      var v := Evaluate(l, env);
      if v.Some? && !Absent(v.value) then v else if v.Some? then Evaluate(r, env) else None
    case Equal(l, r, negated) =>
      var a, b := Evaluate(l, env), Evaluate(r, env);
      if a.Some? && b.Some? then Some(Bool((a.value == b.value) != negated)) else None
    case Cond(c, t, f) =>
      var v := Evaluate(c, env);
      if v.None? then None else Evaluate(if Truth(v.value) then t else f, env)
    case _ => None
  }

  // ----- What a call site pins in its callee

  function OrDefault(known: Option<Value>, init: Option<Expr>): Option<Value> {
    if known == Some(Undefined) && init.Some? then Evaluate(init.value, map[]) else known
  }

  function Pin(key: Key, known: Option<Value>): Env {
    if known.Some? then map[key := known.value] else map[]
  }

  /** The properties of an argument that is a name carry over to the parameter. */
  function Renamed(y: string, x: string, env: Env): (r: Env)
    ensures forall p :: Member(x, p) in r <==> Member(y, p) in env
    ensures forall k <- r :: k.Member? && k.x == x && r[k] == env[Member(y, k.p)]
  {
    map k | k in (set m | m in env && m.Member? && m.x == y :: Member(x, m.p)) :: env[Member(y, k.p)]
  }

  function FieldPins(x: string, fields: List<Field>, env: Env): Env {
    match fields
    case Nil => map[]
    case Cons(field, rest) => Pin(Member(x, field.name), Evaluate(field.value, env)) + FieldPins(x, rest, env)
  }

  function FindField(fields: List<Field>, key: string): Option<Expr> {
    match fields
    case Nil => None
    case Cons(field, rest) => if field.name == key then Some(field.value) else FindField(rest, key)
  }

  /** What an argument, given or not, is known to be. */
  function Argument(arg: Option<Expr>, env: Env): Option<Value> {
    if arg.Some? then Evaluate(arg.value, env) else Some(Undefined)
  }

  function ElemKnown(elem: Elem, arg: Option<Expr>, empty: bool, env: Env): Option<Value> {
    if arg.Some? && arg.value.Record? then
      var field := FindField(arg.value.fields, elem.key);
      if field.Some? then Evaluate(field.value, env) else Some(Undefined)
    else if arg.None? || (!empty && Evaluate(arg.value, env) == Some(Undefined)) then Some(Undefined)
    else None
  }

  function ElemPins(elems: List<Elem>, arg: Option<Expr>, empty: bool, env: Env): Env {
    match elems
    case Nil => map[]
    case Cons(elem, rest) =>
      Pin(Var(elem.x), OrDefault(ElemKnown(elem, arg, empty, env), elem.init)) + ElemPins(rest, arg, empty, env)
  }

  function ParamPins(param: Param, arg: Option<Expr>, env: Env): Env {
    match param
    case Plain(x, init) =>
      var own := Pin(Var(x), OrDefault(Argument(arg, env), init));
      if arg.Some? && arg.value.Name? then own + Renamed(arg.value.x, x, env)
      else if arg.Some? && arg.value.Record? then own + FieldPins(x, arg.value.fields, env)
      else own
    case Pattern(elems, empty) => ElemPins(elems, arg, empty, env)
  }

  function CalleeEnv(params: List<Param>, args: List<Expr>, env: Env): Env {
    match params
    case Nil => map[]
    case Cons(param, rest) =>
      var arg := if args.Nil? then None else Some(args.head);
      ParamPins(param, arg, env) + CalleeEnv(rest, if args.Nil? then Nil else args.tail, env)
  }

  // ----- Writes, and the branches around them

  /** A branch taken only when the condition is truthy, or only when it is falsy. */
  datatype Guard = Guard(c: Expr, whenTrue: bool)

  /** A write, with the branches between it and the body, innermost first. */
  datatype Writing = Writing(key: Key, path: List<Guard>)

  predicate Excludes(g: Guard, env: Env) {
    var v := Evaluate(g.c, env);
    v.Some? && Truth(v.value) != g.whenTrue
  }

  predicate Excluded(path: List<Guard>, env: Env) {
    path.Cons? && (Excludes(path.head, env) || Excluded(path.tail, env))
  }

  /** Climbs from a write to the body and stops at the first branch the environment excludes. */
  method Pruned(path: List<Guard>, env: Env) returns (r: bool)
    ensures r == Excluded(path, env)
  {
    var cursor := path;
    while cursor.Cons?
      invariant Excluded(path, env) == Excluded(cursor, env)
      decreases cursor
    {
      if Excludes(cursor.head, env) {
        return true;
      }
      cursor := cursor.tail;
    }
    return false;
  }

  function Writes(e: Expr, path: List<Guard>): seq<Writing> {
    match e
    case Lit(_) => []
    case Name(_) => []
    case Prop(_, _, _) => []
    case Not(e1) => Writes(e1, path)
    case And(l, r) => Writes(l, path) + Writes(r, Cons(Guard(l, true), path))
    case Or(l, r) => Writes(l, path) + Writes(r, Cons(Guard(l, false), path))
    case Nullish(l, r) => Writes(l, path) + Writes(r, path)
    case Equal(l, r, _) => Writes(l, path) + Writes(r, path)
    case Cond(c, t, f) => Writes(c, path) + Writes(t, Cons(Guard(c, true), path))
      + Writes(f, Cons(Guard(c, false), path))
    case Record(fields) => FieldWrites(fields, path)
    case Call(_, args) => ListWrites(args, path)
    case Assign(x, e1) => [Writing(Var(x), path)] + Writes(e1, path)
    case AssignProp(x, p, e1) => [Writing(Member(x, p), path)] + Writes(e1, path)
    case Lock(_, spans) => ListWrites(spans, path)
    case Opaque(parts) => ListWrites(parts, path)
  }

  function ListWrites(es: List<Expr>, path: List<Guard>): seq<Writing> {
    match es
    case Nil => []
    case Cons(e, rest) => Writes(e, path) + ListWrites(rest, path)
  }

  function FieldWrites(fs: List<Field>, path: List<Guard>): seq<Writing> {
    match fs
    case Nil => []
    case Cons(field, rest) => Writes(field.value, path) + FieldWrites(rest, path)
  }

  function StmtWrites(s: Stmt, path: List<Guard>): seq<Writing> {
    match s
    case ExprStmt(e) => Writes(e, path)
    case Declare(_, _, init) => Writes(init, path)
    case Unpack(_, _, _) => []
    case Block(body) => BodyWrites(body, path)
    case If(c, t, f) => Writes(c, path) + StmtWrites(t, Cons(Guard(c, true), path))
      + StmtWrites(f, Cons(Guard(c, false), path))
    case Return(e) => Writes(e, path)
    case Throw(e) => Writes(e, path)
    case Break => []
    case Continue => []
    case Switch(d, clauses) => Writes(d, path) + ClauseWrites(clauses, path)
    case While(c, loop) => Writes(c, path) + StmtWrites(loop, path)
    case Try(body, handler, finalizer) =>
      BodyWrites(body, path) + BodyWrites(handler, path) + BodyWrites(finalizer, path)
  }

  function BodyWrites(ss: List<Stmt>, path: List<Guard>): seq<Writing> {
    match ss
    case Nil => []
    case Cons(s, rest) => StmtWrites(s, path) + BodyWrites(rest, path)
  }

  function ClauseWrites(clauses: List<Clause>, path: List<Guard>): seq<Writing> {
    match clauses
    case Nil => []
    case Cons(clause, rest) =>
      (if clause.test.Some? then Writes(clause.test.value, path) else []) + BodyWrites(clause.body, path)
        + ClauseWrites(rest, path)
  }

  // ----- Locals

  /** A name bound by a declaration or by destructuring a name. */
  datatype Binder = Local(fixed: bool, x: string, init: Expr) | Picking(fixed: bool, y: string, key: string, x: string)

  function PickBinders(fixed: bool, y: string, picks: List<Pick>): seq<Binder> {
    match picks
    case Nil => []
    case Cons(pick, rest) => [Picking(fixed, y, pick.key, pick.x)] + PickBinders(fixed, y, rest)
  }

  function Binders(s: Stmt): seq<Binder> {
    match s
    case Declare(fixed, x, init) => [Local(fixed, x, init)]
    case Unpack(fixed, y, picks) => PickBinders(fixed, y, picks)
    case Block(body) => BodyBinders(body)
    case If(_, t, f) => Binders(t) + Binders(f)
    case Switch(_, clauses) => ClauseBinders(clauses)
    case While(_, loop) => Binders(loop)
    case Try(body, handler, finalizer) => BodyBinders(body) + BodyBinders(handler) + BodyBinders(finalizer)
    case _ => []
  }

  function BodyBinders(ss: List<Stmt>): seq<Binder> {
    match ss
    case Nil => []
    case Cons(s, rest) => Binders(s) + BodyBinders(rest)
  }

  function ClauseBinders(clauses: List<Clause>): seq<Binder> {
    match clauses
    case Nil => []
    case Cons(clause, rest) => BodyBinders(clause.body) + ClauseBinders(rest)
  }

  predicate Assigned(k: Key, writes: seq<Writing>) {
    exists i :: 0 <= i < |writes| && (writes[i].key == k || writes[i].key == Var(k.x))
  }

  /** A parameter or property assigned anywhere is no longer what the call site passed. */
  function Unassigned(base: Env, writes: seq<Writing>): Env {
    map k | k in base && !Assigned(k, writes) :: base[k]
  }

  /** A name unpacked from a variable takes over what the call pinned for that property. */
  function PinPicks(binders: seq<Binder>, base: Env, out: Env): Env {
    if binders == [] then out
    else
      var b := binders[0];
      var next := if b.Picking? && Member(b.y, b.key) in out && Var(b.x) !in base
                  then out[Var(b.x) := out[Member(b.y, b.key)]] else out;
      PinPicks(binders[1..], base, next)
  }

  predicate Constant(b: Binder, writes: seq<Writing>, env: Env)
    requires b.Local?
  {
    b.fixed || forall i :: 0 <= i < |writes| && writes[i].key == Var(b.x) ==> Excluded(writes[i].path, env)
  }

  function Times(binders: seq<Binder>, x: string): nat {
    if binders == [] then 0 else Times(binders[1..], x) + if binders[0].Local? && binders[0].x == x then 1 else 0
  }

  /** A local whose initializer is known stays pinned while no write to it can be reached. */
  function PinLocals(binders: seq<Binder>, all: seq<Binder>, writes: seq<Writing>, base: Env, out: Env): Env {
    if binders == [] then out
    else
      var b := binders[0];
      var next :=
        if b.Picking? || Times(all, b.x) != 1 || Var(b.x) in base then out
        else
          var known := Evaluate(b.init, out);
          if known.Some? && Constant(b, writes, out) then out[Var(b.x) := known.value] else out;
      PinLocals(binders[1..], all, writes, base, next)
  }

  function WithLocals(f: Function, base: Env): Env {
    var writes, binders := BodyWrites(f.body, Nil), BodyBinders(f.body);
    PinLocals(binders, binders, writes, base, PinPicks(binders, base, Unassigned(base, writes)))
  }

  // ----- The walk

  /** A function together with the literals pinned in it. */
  datatype Target = Target(fn: nat, env: Env)

  datatype Summary = Summary(locks: set<nat>, callees: seq<Target>) {
    function Plus(other: Summary): Summary {
      Summary(locks + other.locks, callees + other.callees)
    }
  }

  const NOTHING := Summary({}, [])

  datatype Flow = Flow(exits: bool, sum: Summary)

  datatype End = Exit | Leave | Next

  datatype ClauseEnd = ClauseEnd(end: End, sum: Summary)

  function Visit(p: Program, e: Expr, env: Env): Summary {
    match e
    case Lit(_) => NOTHING
    case Name(_) => NOTHING
    case Prop(_, _, _) => NOTHING
    case Not(e1) => Visit(p, e1, env)
    case And(l, r) =>
      var v := Evaluate(l, env);
      if v.Some? && !Truth(v.value) then Visit(p, l, env) else Visit(p, l, env).Plus(Visit(p, r, env))
    case Or(l, r) =>
      var v := Evaluate(l, env);
      if v.Some? && Truth(v.value) then Visit(p, l, env) else Visit(p, l, env).Plus(Visit(p, r, env))
    case Nullish(l, r) =>
      var v := Evaluate(l, env);
      if v.Some? && !Absent(v.value) then Visit(p, l, env) else Visit(p, l, env).Plus(Visit(p, r, env))
    case Equal(l, r, _) => Visit(p, l, env).Plus(Visit(p, r, env))
    case Cond(c, t, f) =>
      var v := Evaluate(c, env);
      var yes := if v.None? || Truth(v.value) then Visit(p, t, env) else NOTHING;
      var no := if v.None? || !Truth(v.value) then Visit(p, f, env) else NOTHING;
      Visit(p, c, env).Plus(yes.Plus(no))
    case Record(fields) => VisitFields(p, fields, env)
    case Call(fn, args) =>
      (if fn < |p| then Summary({}, [Target(fn, CalleeEnv(p[fn].params, args, env))])
        else NOTHING).Plus(VisitAll(p, args, env))
    case Assign(_, e1) => Visit(p, e1, env)
    case AssignProp(_, _, e1) => Visit(p, e1, env)
    case Lock(site, spans) => Summary({site}, []).Plus(VisitAll(p, spans, env))
    case Opaque(parts) => VisitAll(p, parts, env)
  }

  function VisitAll(p: Program, es: List<Expr>, env: Env): Summary {
    match es
    case Nil => NOTHING
    case Cons(e, rest) => Visit(p, e, env).Plus(VisitAll(p, rest, env))
  }

  function VisitFields(p: Program, fs: List<Field>, env: Env): Summary {
    match fs
    case Nil => NOTHING
    case Cons(field, rest) => Visit(p, field.value, env).Plus(VisitFields(p, rest, env))
  }

  /** A statement met as a statement: it may be known never to complete. */
  function Statement(p: Program, s: Stmt, env: Env): Flow
    decreases s, 1
  {
    match s
    case Block(body) => Statements(p, body, env)
    case If(c, t, f) =>
      var v := Evaluate(c, env);
      if v.Some? then
        var taken := if Truth(v.value) then Statement(p, t, env) else Statement(p, f, env);
        Flow(taken.exits, Visit(p, c, env).Plus(taken.sum))
      else
        var yes, no := Statement(p, t, env), Statement(p, f, env);
        Flow(yes.exits && no.exits, Visit(p, c, env).Plus(yes.sum.Plus(no.sum)))
    case Return(e) => Flow(true, Visit(p, e, env))
    case Throw(e) => Flow(true, Visit(p, e, env))
    case Switch(d, clauses) =>
      var v := Evaluate(d, env);
      var inner := if v.Some? then WalkFrom(p, clauses, v.value, env) else Flow(false, WalkClauses(p, clauses, env));
      Flow(inner.exits, Visit(p, d, env).Plus(inner.sum))
    case _ => Flow(false, VisitStmt(p, s, env))
  }

  function Statements(p: Program, ss: List<Stmt>, env: Env): Flow
    decreases ss, 0
  {
    match ss
    case Nil => Flow(false, NOTHING)
    case Cons(s, rest) =>
      var first := Statement(p, s, env);
      if first.exits then first else
      var others := Statements(p, rest, env);
      Flow(others.exits, first.sum.Plus(others.sum))
  }

  /** A node met by the generic visit: only blocks are walked in order. */
  function VisitStmt(p: Program, s: Stmt, env: Env): Summary
    decreases s, 0
  {
    match s
    case ExprStmt(e) => Visit(p, e, env)
    case Declare(_, _, init) => Visit(p, init, env)
    case Unpack(_, _, _) => NOTHING
    case Block(body) => Statements(p, body, env).sum
    case If(c, t, f) => Visit(p, c, env).Plus(VisitStmt(p, t, env).Plus(VisitStmt(p, f, env)))
    case Return(e) => Visit(p, e, env)
    case Throw(e) => Visit(p, e, env)
    case Break => NOTHING
    case Continue => NOTHING
    case Switch(d, clauses) => Visit(p, d, env).Plus(VisitClauses(p, clauses, env))
    case While(c, loop) => Visit(p, c, env).Plus(VisitStmt(p, loop, env))
    case Try(body, handler, finalizer) =>
      Statements(p, body, env).sum.Plus(Statements(p, handler, env).sum.Plus(Statements(p, finalizer, env).sum))
  }

  function VisitStmts(p: Program, ss: List<Stmt>, env: Env): Summary
    decreases ss, 0
  {
    match ss
    case Nil => NOTHING
    case Cons(s, rest) => VisitStmt(p, s, env).Plus(VisitStmts(p, rest, env))
  }

  function TestVisit(p: Program, clause: Clause, env: Env): Summary {
    if clause.test.Some? then Visit(p, clause.test.value, env) else NOTHING
  }

  function VisitClauses(p: Program, clauses: List<Clause>, env: Env): Summary
    decreases clauses, 0
  {
    match clauses
    case Nil => NOTHING
    case Cons(clause, rest) =>
      TestVisit(p, clause, env).Plus(VisitStmts(p, clause.body, env).Plus(VisitClauses(p, rest, env)))
  }

  /** Every clause, when the discriminant is runtime data. */
  function WalkClauses(p: Program, clauses: List<Clause>, env: Env): Summary
    decreases clauses, 0
  {
    match clauses
    case Nil => NOTHING
    case Cons(clause, rest) =>
      TestVisit(p, clause, env).Plus(Statements(p, clause.body, env).sum.Plus(WalkClauses(p, rest, env)))
  }

  /** A label matches when its value, undefined if it has none, is the discriminant's. */
  predicate Matches(clause: Clause, v: Value, env: Env) {
    && clause.test.Some?
    && var known := Evaluate(clause.test.value, env);
       (if known.Some? then known.value else Undefined) == v
  }

  function Start(clauses: List<Clause>, all: List<Clause>, v: Value, env: Env): List<Clause> {
    match clauses
    case Nil => FromDefault(all)
    case Cons(clause, rest) => if Matches(clause, v, env) then clauses else Start(rest, all, v, env)
  }

  /** The clauses of a switch whose discriminant is known, from the one that matches. */
  function WalkFrom(p: Program, clauses: List<Clause>, v: Value, env: Env): Flow
    decreases clauses, 2
  {
    StartWithin(clauses, clauses, v, env);
    var from := Start(clauses, clauses, v, env);
    if from.Nil? then Flow(false, NOTHING) else WalkThrough(p, from, false, env)
  }

  function WalkThrough(p: Program, clauses: List<Clause>, mayLeave: bool, env: Env): Flow
    decreases clauses, 1
  {
    match clauses
    case Nil => Flow(false, NOTHING)
    case Cons(clause, rest) =>
      var flow := ClauseFlow(p, clause.body, env);
      if flow.end.Leave? then Flow(false, flow.sum) else
      var leaving := mayLeave || LeavesSwitch(clause.body);
      if flow.end.Exit? then Flow(!leaving, flow.sum) else
      var others := WalkThrough(p, rest, leaving, env);
      Flow(others.exits, flow.sum.Plus(others.sum))
  }

  function ClauseFlow(p: Program, ss: List<Stmt>, env: Env): ClauseEnd
    decreases ss, 0
  {
    match ss
    case Nil => ClauseEnd(Next, NOTHING)
    case Cons(s, rest) =>
      if s.Break? || s.Continue? then ClauseEnd(Leave, NOTHING)
      else
        var first := if s.Block? then ClauseFlow(p, s.body, env)
                     else
                       var flow := Statement(p, s, env);
                       ClauseEnd(if flow.exits then Exit else Next, flow.sum);
        if !first.end.Next? then first else
        var others := ClauseFlow(p, rest, env);
        ClauseEnd(others.end, first.sum.Plus(others.sum))
  }

  /** A break or continue that is not owned by an inner loop or switch. */
  predicate LeavesSwitch(ss: List<Stmt>) {
    ss.Cons? && (Leaves(ss.head) || LeavesSwitch(ss.tail))
  }

  predicate Leaves(s: Stmt) {
    match s
    case Break => true
    case Continue => true
    case Block(body) => LeavesSwitch(body)
    case If(_, t, f) => Leaves(t) || Leaves(f)
    case Try(body, handler, finalizer) => LeavesSwitch(body) || LeavesSwitch(handler) || LeavesSwitch(finalizer)
    case _ => false
  }

  ghost predicate Suffix(part: List<Clause>, all: List<Clause>)
    ensures Suffix(part, all) ==> part == all || part < all
  {
    part == all || (all.Cons? && Suffix(part, all.tail))
  }

  lemma {:induction false} TailSuffix(part: List<Clause>, all: List<Clause>)
    requires Suffix(part, all) && part.Cons?
    ensures Suffix(part.tail, all)
  {
    if part != all {
      TailSuffix(part, all.tail);
    }
  }

  lemma {:induction false} DefaultWithin(clauses: List<Clause>, all: List<Clause>)
    requires Suffix(clauses, all)
    ensures Suffix(FromDefault(clauses), all)
  {
    if clauses.Cons? && clauses.head.test.Some? {
      TailSuffix(clauses, all);
      DefaultWithin(clauses.tail, all);
    }
  }

  lemma {:induction false} StartWithin(clauses: List<Clause>, all: List<Clause>, v: Value, env: Env)
    requires Suffix(clauses, all)
    ensures Suffix(Start(clauses, all, v, env), all)
  {
    if clauses.Nil? {
      DefaultWithin(all, all);
    } else {
      TailSuffix(clauses, all);
      StartWithin(clauses.tail, all, v, env);
    }
  }

  function VisitInit(p: Program, init: Option<Expr>, env: Env): Summary {
    if init.Some? then Visit(p, init.value, env) else NOTHING
  }

  function VisitElems(p: Program, elems: List<Elem>, env: Env): Summary {
    match elems
    case Nil => NOTHING
    case Cons(elem, rest) => VisitInit(p, elem.init, env).Plus(VisitElems(p, rest, env))
  }

  function VisitParam(p: Program, param: Param, env: Env): Summary {
    match param
    case Plain(_, init) => VisitInit(p, init, env)
    case Pattern(elems, _) => VisitElems(p, elems, env)
  }

  function VisitParams(p: Program, params: List<Param>, env: Env): Summary {
    match params
    case Nil => NOTHING
    case Cons(param, rest) => VisitParam(p, param, env).Plus(VisitParams(p, rest, env))
  }

  /** What one specialized function locks and calls. */
  function Summarize(p: Program, t: Target): Summary
    requires t.fn < |p|
  {
    var f := p[t.fn];
    var env := WithLocals(f, t.env);
    VisitParams(p, f.params, env).Plus(Statements(p, f.body, env).sum)
  }
}
