/** What the audit's environments say about running frames. */
module RowLockFacts {
  import opened Options
  import opened RowLockLanguage
  import opened RowLockAudit

  // ----- Pinning more values

  ghost predicate Within(env: Env, more: Env) {
    forall k <- env :: k in more && more[k] == env[k]
  }

  /** No property is newly pinned on a name that is pinned as absent, except to undefined. */
  ghost predicate Compatible(env: Env, more: Env) {
    forall x, p :: Var(x) in env && Absent(env[Var(x)]) && Member(x, p) in more && Member(x, p) !in env ==>
                     more[Member(x, p)] == Undefined
  }

  lemma {:induction false} EvaluateMonotone(e: Expr, env: Env, more: Env)
    requires Within(env, more) && Compatible(env, more) && Evaluate(e, env).Some?
    ensures Evaluate(e, more) == Evaluate(e, env)
  {
    match e
    case Not(e1) => EvaluateMonotone(e1, env, more);
    case And(l, r) =>
      EvaluateMonotone(l, env, more);
      if Truth(Evaluate(l, env).value) { EvaluateMonotone(r, env, more); }
    case Or(l, r) =>
      EvaluateMonotone(l, env, more);
      if !Truth(Evaluate(l, env).value) { EvaluateMonotone(r, env, more); }
    case Nullish(l, r) =>
      EvaluateMonotone(l, env, more);
      if Absent(Evaluate(l, env).value) { EvaluateMonotone(r, env, more); }
    case Equal(l, r, _) =>
      EvaluateMonotone(l, env, more);
      EvaluateMonotone(r, env, more);
    case Cond(c, t, f) =>
      EvaluateMonotone(c, env, more);
      EvaluateMonotone(if Truth(Evaluate(c, env).value) then t else f, env, more);
    case _ =>
  }

  /** Known results survive further pinning exactly when the pins are compatible. */
  lemma PinningMore(env: Env, more: Env)
    requires Within(env, more)
    ensures Compatible(env, more) <==> forall e :: Evaluate(e, env).Some? ==> Evaluate(e, more) == Evaluate(e, env)
  {
    if Compatible(env, more) {
      forall e | Evaluate(e, env).Some?
        ensures Evaluate(e, more) == Evaluate(e, env)
      {
        EvaluateMonotone(e, env, more);
      }
    } else {
      var x, p :| Var(x) in env && Absent(env[Var(x)]) && Member(x, p) in more && Member(x, p) !in env &&
                  more[Member(x, p)] != Undefined;
      assert Evaluate(Prop(x, p, true), env) == Some(Undefined);
      assert Evaluate(Prop(x, p, true), more) == Some(more[Member(x, p)]);
    }
  }

  // ----- Writes a run can reach

  function Live(e: Expr, env: Env): set<Key> {
    match e
    case Lit(_) => {}
    case Name(_) => {}
    case Prop(_, _, _) => {}
    case Not(e1) => Live(e1, env)
    case And(l, r) => Live(l, env) + if Excludes(Guard(l, true), env) then {} else Live(r, env)
    case Or(l, r) => Live(l, env) + if Excludes(Guard(l, false), env) then {} else Live(r, env)
    case Nullish(l, r) => Live(l, env) + Live(r, env)
    case Equal(l, r, _) => Live(l, env) + Live(r, env)
    case Cond(c, t, f) =>
      Live(c, env) + (if Excludes(Guard(c, true), env) then {} else Live(t, env))
      + (if Excludes(Guard(c, false), env) then {} else Live(f, env))
    case Record(fields) => LiveFields(fields, env)
    case Call(_, args) => LiveAll(args, env)
    case Assign(x, e1) => {Var(x)} + Live(e1, env)
    case AssignProp(x, p, e1) => {Member(x, p)} + Live(e1, env)
    case Lock(_, spans) => LiveAll(spans, env)
    case Opaque(parts) => LiveAll(parts, env)
  }

  function LiveAll(es: List<Expr>, env: Env): set<Key> {
    match es
    case Nil => {}
    case Cons(e, rest) => Live(e, env) + LiveAll(rest, env)
  }

  function LiveFields(fs: List<Field>, env: Env): set<Key> {
    match fs
    case Nil => {}
    case Cons(field, rest) => Live(field.value, env) + LiveFields(rest, env)
  }

  function LiveStmt(s: Stmt, env: Env): set<Key> {
    match s
    case ExprStmt(e) => Live(e, env)
    case Declare(_, _, init) => Live(init, env)
    case Unpack(_, _, _) => {}
    case Block(body) => LiveBody(body, env)
    case If(c, t, f) =>
      Live(c, env) + (if Excludes(Guard(c, true), env) then {} else LiveStmt(t, env))
      + (if Excludes(Guard(c, false), env) then {} else LiveStmt(f, env))
    case Return(e) => Live(e, env)
    case Throw(e) => Live(e, env)
    case Break => {}
    case Continue => {}
    case Switch(d, clauses) => Live(d, env) + LiveClauses(clauses, env)
    case While(c, loop) => Live(c, env) + LiveStmt(loop, env)
    case Try(body, handler, finalizer) => LiveBody(body, env) + LiveBody(handler, env) + LiveBody(finalizer, env)
  }

  function LiveBody(ss: List<Stmt>, env: Env): set<Key> {
    match ss
    case Nil => {}
    case Cons(s, rest) => LiveStmt(s, env) + LiveBody(rest, env)
  }

  function LiveClauses(clauses: List<Clause>, env: Env): set<Key> {
    match clauses
    case Nil => {}
    case Cons(clause, rest) =>
      (if clause.test.Some? then Live(clause.test.value, env) else {}) + LiveBody(clause.body, env)
        + LiveClauses(rest, env)
  }

  /** Some write to the key is in no branch that the environment excludes. */
  ghost predicate Reached(k: Key, writes: seq<Writing>, env: Env) {
    exists w :: w in writes && w.key == k && !Excluded(w.path, env)
  }

  lemma ReachedPlus(k: Key, a: seq<Writing>, b: seq<Writing>, env: Env)
    ensures Reached(k, a, env) || Reached(k, b, env) ==> Reached(k, a + b, env)
  {
    if Reached(k, a, env) {
      var w :| w in a && w.key == k && !Excluded(w.path, env);
      assert w in a + b;
    } else if Reached(k, b, env) {
      var w :| w in b && w.key == k && !Excluded(w.path, env);
      assert w in a + b;
    }
  }

  lemma {:induction false} LiveReached(k: Key, e: Expr, path: List<Guard>, env: Env)
    requires k in Live(e, env) && !Excluded(path, env)
    ensures Reached(k, Writes(e, path), env)
    decreases e
  {
    match e
    case Not(e1) => LiveReached(k, e1, path, env);
    case And(l, r) =>
      var inner := Cons(Guard(l, true), path);
      if k in Live(l, env) { LiveReached(k, l, path, env); } else { LiveReached(k, r, inner, env); }
      ReachedPlus(k, Writes(l, path), Writes(r, inner), env);
    case Or(l, r) =>
      var inner := Cons(Guard(l, false), path);
      if k in Live(l, env) { LiveReached(k, l, path, env); } else { LiveReached(k, r, inner, env); }
      ReachedPlus(k, Writes(l, path), Writes(r, inner), env);
    case Nullish(l, r) =>
      if k in Live(l, env) { LiveReached(k, l, path, env); } else { LiveReached(k, r, path, env); }
      ReachedPlus(k, Writes(l, path), Writes(r, path), env);
    case Equal(l, r, _) =>
      if k in Live(l, env) { LiveReached(k, l, path, env); } else { LiveReached(k, r, path, env); }
      ReachedPlus(k, Writes(l, path), Writes(r, path), env);
    case Cond(c, t, f) =>
      var yes, no := Cons(Guard(c, true), path), Cons(Guard(c, false), path);
      if k in Live(c, env) { LiveReached(k, c, path, env); }
      else if !Excludes(Guard(c, true), env) && k in Live(t, env) { LiveReached(k, t, yes, env); }
      else { LiveReached(k, f, no, env); }
      ReachedPlus(k, Writes(c, path), Writes(t, yes), env);
      ReachedPlus(k, Writes(c, path) + Writes(t, yes), Writes(f, no), env);
    case Record(fields) => FieldsReached(k, fields, path, env);
    case Call(_, args) => AllReached(k, args, path, env);
    case Assign(x, e1) =>
      if k == Var(x) { assert Writing(k, path) in [Writing(Var(x), path)]; } else { LiveReached(k, e1, path, env); }
      ReachedPlus(k, [Writing(Var(x), path)], Writes(e1, path), env);
    case AssignProp(x, p, e1) =>
      if k == Member(x, p) {
        assert Writing(k, path) in [Writing(Member(x, p), path)];
      } else {
        LiveReached(k, e1, path, env);
      }
      ReachedPlus(k, [Writing(Member(x, p), path)], Writes(e1, path), env);
    case Lock(_, spans) => AllReached(k, spans, path, env);
    case Opaque(parts) => AllReached(k, parts, path, env);
    case _ => assert false;
  }

  lemma {:induction false} AllReached(k: Key, es: List<Expr>, path: List<Guard>, env: Env)
    requires k in LiveAll(es, env) && !Excluded(path, env)
    ensures Reached(k, ListWrites(es, path), env)
    decreases es
  {
    if k in Live(es.head, env) { LiveReached(k, es.head, path, env); } else { AllReached(k, es.tail, path, env); }
    ReachedPlus(k, Writes(es.head, path), ListWrites(es.tail, path), env);
  }

  lemma {:induction false} FieldsReached(k: Key, fs: List<Field>, path: List<Guard>, env: Env)
    requires k in LiveFields(fs, env) && !Excluded(path, env)
    ensures Reached(k, FieldWrites(fs, path), env)
    decreases fs
  {
    var e := fs.head.value;
    if k in Live(e, env) { LiveReached(k, e, path, env); } else { FieldsReached(k, fs.tail, path, env); }
    ReachedPlus(k, Writes(e, path), FieldWrites(fs.tail, path), env);
  }

  lemma {:induction false} StmtReached(k: Key, s: Stmt, path: List<Guard>, env: Env)
    requires k in LiveStmt(s, env) && !Excluded(path, env)
    ensures Reached(k, StmtWrites(s, path), env)
    decreases s
  {
    match s
    case ExprStmt(e) => LiveReached(k, e, path, env);
    case Declare(_, _, init) => LiveReached(k, init, path, env);
    case Block(body) => BodyReached(k, body, path, env);
    case If(c, t, f) =>
      var yes, no := Cons(Guard(c, true), path), Cons(Guard(c, false), path);
      if k in Live(c, env) { LiveReached(k, c, path, env); }
      else if !Excludes(Guard(c, true), env) && k in LiveStmt(t, env) { StmtReached(k, t, yes, env); }
      else { StmtReached(k, f, no, env); }
      ReachedPlus(k, Writes(c, path), StmtWrites(t, yes), env);
      ReachedPlus(k, Writes(c, path) + StmtWrites(t, yes), StmtWrites(f, no), env);
    case Return(e) => LiveReached(k, e, path, env);
    case Throw(e) => LiveReached(k, e, path, env);
    case Switch(d, clauses) =>
      if k in Live(d, env) { LiveReached(k, d, path, env); } else { ClausesReached(k, clauses, path, env); }
      ReachedPlus(k, Writes(d, path), ClauseWrites(clauses, path), env);
    case While(c, loop) =>
      if k in Live(c, env) { LiveReached(k, c, path, env); } else { StmtReached(k, loop, path, env); }
      ReachedPlus(k, Writes(c, path), StmtWrites(loop, path), env);
    case Try(body, handler, finalizer) =>
      if k in LiveBody(body, env) { BodyReached(k, body, path, env); }
      else if k in LiveBody(handler, env) { BodyReached(k, handler, path, env); }
      else { BodyReached(k, finalizer, path, env); }
      ReachedPlus(k, BodyWrites(body, path), BodyWrites(handler, path), env);
      ReachedPlus(k, BodyWrites(body, path) + BodyWrites(handler, path), BodyWrites(finalizer, path), env);
    case _ => assert false;
  }

  lemma {:induction false} BodyReached(k: Key, ss: List<Stmt>, path: List<Guard>, env: Env)
    requires k in LiveBody(ss, env) && !Excluded(path, env)
    ensures Reached(k, BodyWrites(ss, path), env)
    decreases ss
  {
    if k in LiveStmt(ss.head, env) { StmtReached(k, ss.head, path, env); } else { BodyReached(k, ss.tail, path, env); }
    ReachedPlus(k, StmtWrites(ss.head, path), BodyWrites(ss.tail, path), env);
  }

  lemma {:induction false} ClausesReached(k: Key, clauses: List<Clause>, path: List<Guard>, env: Env)
    requires k in LiveClauses(clauses, env) && !Excluded(path, env)
    ensures Reached(k, ClauseWrites(clauses, path), env)
    decreases clauses
  {
    var clause, rest := clauses.head, clauses.tail;
    var test := if clause.test.Some? then Writes(clause.test.value, path) else [];
    if clause.test.Some? && k in Live(clause.test.value, env) { LiveReached(k, clause.test.value, path, env); }
    else if k in LiveBody(clause.body, env) { BodyReached(k, clause.body, path, env); }
    else { ClausesReached(k, rest, path, env); }
    ReachedPlus(k, test, BodyWrites(clause.body, path), env);
    ReachedPlus(k, test + BodyWrites(clause.body, path), ClauseWrites(rest, path), env);
  }
}
