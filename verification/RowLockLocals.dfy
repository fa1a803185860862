/** The values the audit pins for a function hold in every frame that runs it. */
module RowLockLocals {
  import opened Options
  import opened RowLockLanguage
  import opened RowLockAudit
  import opened RowLockFacts

  /** What the audit knows of a frame: pinned values, and the names that cannot be reassigned. */
  datatype Frame = Frame(env: Env, consts: set<string>)

  // ----- Functions the audit is right about

  function ElemNames(elems: List<Elem>): seq<string> {
    match elems
    case Nil => []
    case Cons(elem, rest) => [elem.x] + ElemNames(rest)
  }

  function NamesOf(param: Param): seq<string> {
    match param
    case Plain(x, _) => [x]
    case Pattern(elems, _) => ElemNames(elems)
  }

  function ParamNames(params: List<Param>): seq<string> {
    match params
    case Nil => []
    case Cons(param, rest) => NamesOf(param) + ParamNames(rest)
  }

  ghost predicate Distinct(names: seq<string>) {
    forall i, j :: 0 <= i < j < |names| ==> names[i] != names[j]
  }

  /** A name declared more than once is declared as a plain local each time. */
  ghost predicate SeparateBinders(binders: seq<Binder>) {
    forall i, j :: 0 <= i < j < |binders| && binders[i].x == binders[j].x ==> binders[i].Local? && binders[j].Local?
  }

  /** A name unpacked with `let` is assigned nowhere. */
  ghost predicate UnpackedKept(binders: seq<Binder>, writes: seq<Writing>) {
    forall b, w :: b in binders && b.Picking? && !b.fixed && w in writes ==> w.key != Var(b.x)
  }

  /** No local is named like a parameter, an unpacked name is declared once, and with `let` it is not assigned. */
  ghost predicate Tidy(f: Function) {
    var names, binders := ParamNames(f.params), BodyBinders(f.body);
    && Distinct(names)
    && SeparateBinders(binders)
    && (forall b <- binders :: b.x !in names)
    && UnpackedKept(binders, BodyWrites(f.body, Nil))
  }

  /** The names that no declaration lets be assigned. */
  function Consts(binders: seq<Binder>): set<string> {
    set b | b in binders && (forall c <- binders :: c.x == b.x ==> c.fixed) :: b.x
  }

  function FrameOf(f: Function, base: Env): Frame {
    Frame(WithLocals(f, base), Consts(BodyBinders(f.body)))
  }

  /** Pins of a call concern parameters only. */
  ghost predicate Pinnable(params: List<Param>, base: Env) {
    forall k <- base :: k.x in ParamNames(params)
  }

  // ----- What the pins are

  ghost predicate BinderOk(b: Binder, fr: Frame) {
    && (b.x in fr.consts ==> b.fixed)
    && (forall p :: Member(b.x, p) !in fr.env)
    && (Var(b.x) in fr.env ==>
          match b
          case Local(_, x, init) => Evaluate(init, fr.env) == Some(fr.env[Var(x)])
          case Picking(_, y, key, x) => Member(y, key) in fr.env && fr.env[Member(y, key)] == fr.env[Var(x)])
  }

  ghost predicate WriteOk(k: Key, fr: Frame) {
    match k
    case Var(x) => (Var(x) in fr.env ==> x in fr.consts) && forall p :: Member(x, p) !in fr.env
    case Member(x, p) => k !in fr.env
  }

  /** Every name is bound apart from the names the call pinned. */
  ghost predicate Fresh(binders: seq<Binder>, base: Env) {
    SeparateBinders(binders) && forall b, k :: b in binders && k in base ==> k.x != b.x
  }

  /** The only binder of its name. */
  ghost predicate Sole(binders: seq<Binder>, b: Binder) {
    b in binders && forall c <- binders :: c.x == b.x ==> c == b
  }

  lemma PickingIsSole(binders: seq<Binder>, b: Binder)
    requires SeparateBinders(binders) && b in binders && b.Picking?
    ensures Sole(binders, b)
  {
    var i :| 0 <= i < |binders| && binders[i] == b;
    forall c | c in binders && c.x == b.x
      ensures c == b
    {
      var j :| 0 <= j < |binders| && binders[j] == c;
      assert i == j;
    }
  }

  lemma {:induction false} NoTimes(binders: seq<Binder>, x: string)
    requires Times(binders, x) == 0
    ensures forall c <- binders :: c.Local? ==> c.x != x
  {
    if binders != [] {
      NoTimes(binders[1..], x);
      assert forall c <- binders :: c == binders[0] || c in binders[1..];
    }
  }

  lemma {:induction false} SomeTimes(binders: seq<Binder>, i: nat)
    requires i < |binders| && binders[i].Local?
    ensures Times(binders, binders[i].x) >= 1
  {
    if i > 0 {
      SomeTimes(binders[1..], i - 1);
    }
  }

  lemma {:induction false} TwoTimes(binders: seq<Binder>, i: nat, j: nat)
    requires i < j < |binders| && binders[i].Local? && binders[j].Local? && binders[i].x == binders[j].x
    ensures Times(binders, binders[i].x) >= 2
  {
    if i > 0 {
      TwoTimes(binders[1..], i - 1, j - 1);
    } else {
      SomeTimes(binders[1..], j - 1);
    }
  }

  lemma {:induction false} OneTime(binders: seq<Binder>, b: Binder, c: Binder)
    requires Times(binders, b.x) == 1 && b in binders && c in binders && b.Local? && c.Local? && b.x == c.x
    ensures b == c
  {
    var rest := binders[1..];
    assert forall d <- binders :: d == binders[0] || d in rest;
    if binders[0].Local? && binders[0].x == b.x {
      NoTimes(rest, b.x);
    } else {
      OneTime(rest, b, c);
    }
  }

  lemma OnceIsSole(binders: seq<Binder>, b: Binder)
    requires SeparateBinders(binders) && b in binders && b.Local? && Times(binders, b.x) == 1
    ensures Sole(binders, b)
  {
    forall c | c in binders && c.x == b.x
      ensures c == b
    {
      if c.Picking? {
        PickingIsSole(binders, c);
      } else {
        OneTime(binders, b, c);
      }
    }
  }

  /** A key unpacked from a pinned property. */
  ghost predicate PickReason(k: Key, v: Value, b: Binder, start: Env) {
    b.Picking? && k == Var(b.x) && Member(b.y, b.key) in start && start[Member(b.y, b.key)] == v
  }

  ghost predicate PicksDone(binders: seq<Binder>, start: Env, out: Env) {
    && Within(start, out)
    && forall k <- out :: k in start || exists b :: b in binders && PickReason(k, out[k], b, start)
  }

  lemma {:induction false} PicksAreDone(rest: seq<Binder>, binders: seq<Binder>, base: Env, start: Env, out: Env)
    requires Fresh(binders, base) && Within(start, base) && PicksDone(binders, start, out)
    requires forall b <- rest :: b in binders
    ensures PicksDone(binders, start, PinPicks(rest, base, out))
  {
    if rest != [] {
      var b := rest[0];
      var next := if b.Picking? && Member(b.y, b.key) in out && Var(b.x) !in base
                  then out[Var(b.x) := out[Member(b.y, b.key)]] else out;
      if next != out {
        PickStep(b, binders, base, start, out);
      }
      PicksAreDone(rest[1..], binders, base, start, next);
    }
  }

  lemma PickStep(b: Binder, binders: seq<Binder>, base: Env, start: Env, out: Env)
    requires Fresh(binders, base) && Within(start, base) && PicksDone(binders, start, out)
    requires b in binders && b.Picking? && Member(b.y, b.key) in out
    ensures PicksDone(binders, start, out[Var(b.x) := out[Member(b.y, b.key)]])
  {
    var next := out[Var(b.x) := out[Member(b.y, b.key)]];
    assert Member(b.y, b.key) in start;
    forall k | k in next
      ensures k in start || exists c :: c in binders && PickReason(k, next[k], c, start)
    {
      if k == Var(b.x) {
        assert PickReason(k, next[k], b, start);
      } else if k !in start {
        var c :| c in binders && PickReason(k, out[k], c, start);
        assert PickReason(k, next[k], c, start);
      }
    }
  }

  /** A local whose initializer is known and that nothing reached can reassign. */
  ghost predicate LocalReason(k: Key, v: Value, b: Binder, binders: seq<Binder>, writes: seq<Writing>, env: Env) {
    && b.Local? && b in binders && Times(binders, b.x) == 1
    && k == Var(b.x) && Evaluate(b.init, env) == Some(v) && Constant(b, writes, env)
  }

  ghost predicate LocalsDone(binders: seq<Binder>, writes: seq<Writing>, picked: Env, out: Env) {
    && Within(picked, out)
    && forall k <- out :: k in picked || exists b :: LocalReason(k, out[k], b, binders, writes, out)
  }

  lemma {:induction false} ExcludedMonotone(path: List<Guard>, env: Env, more: Env)
    requires Within(env, more) && Compatible(env, more) && Excluded(path, env)
    ensures Excluded(path, more)
    decreases path
  {
    if Excludes(path.head, env) {
      EvaluateMonotone(path.head.c, env, more);
    } else {
      ExcludedMonotone(path.tail, env, more);
    }
  }

  lemma ReasonMonotone(k: Key, v: Value, b: Binder, binders: seq<Binder>, writes: seq<Writing>, env: Env, more: Env)
    requires Within(env, more) && Compatible(env, more) && LocalReason(k, v, b, binders, writes, env)
    ensures LocalReason(k, v, b, binders, writes, more)
  {
    EvaluateMonotone(b.init, env, more);
    forall i | 0 <= i < |writes| && writes[i].key == Var(b.x) && !b.fixed
      ensures Excluded(writes[i].path, more)
    {
      ExcludedMonotone(writes[i].path, env, more);
    }
  }

  lemma LocalStep(b: Binder, v: Value, binders: seq<Binder>, writes: seq<Writing>, picked: Env, out: Env)
    requires LocalsDone(binders, writes, picked, out)
    requires Var(b.x) !in out && LocalReason(Var(b.x), v, b, binders, writes, out)
    ensures LocalsDone(binders, writes, picked, out[Var(b.x) := v])
  {
    var next := out[Var(b.x) := v];
    forall k | k in next
      ensures k in picked || exists c :: LocalReason(k, next[k], c, binders, writes, next)
    {
      if k == Var(b.x) {
        ReasonMonotone(k, v, b, binders, writes, out, next);
      } else if k !in picked {
        var c :| LocalReason(k, out[k], c, binders, writes, out);
        ReasonMonotone(k, out[k], c, binders, writes, out, next);
      }
    }
  }

  /** The first `i` binders have been considered; no later one is pinned as a local. */
  lemma {:induction false} LocalsAreDone(i: nat, binders: seq<Binder>, writes: seq<Writing>, base: Env, picked: Env,
                                         out: Env)
    requires i <= |binders| && Fresh(binders, base) && LocalsDone(binders, writes, picked, out)
    requires forall j :: i <= j < |binders| && binders[j].Local? && Times(binders, binders[j].x) == 1 ==>
               Var(binders[j].x) !in out
    ensures LocalsDone(binders, writes, picked, PinLocals(binders[i..], binders, writes, base, out))
    decreases |binders| - i
  {
    if i < |binders| {
      var b := binders[i];
      assert binders[i..][0] == b && binders[i..][1..] == binders[i + 1..];
      if b.Picking? || Times(binders, b.x) != 1 || Var(b.x) in base {
        LocalsAreDone(i + 1, binders, writes, base, picked, out);
      } else {
        var known := Evaluate(b.init, out);
        if known.Some? && Constant(b, writes, out) {
          forall j | i < j < |binders| && binders[j].Local?
            ensures binders[j].x != b.x
          {
            if binders[j].x == b.x {
              TwoTimes(binders, i, j);
            }
          }
          LocalStep(b, known.value, binders, writes, picked, out);
          LocalsAreDone(i + 1, binders, writes, base, picked, out[Var(b.x) := known.value]);
        } else {
          LocalsAreDone(i + 1, binders, writes, base, picked, out);
        }
      }
    }
  }

  /** Where a pin of a frame comes from. */
  lemma PinSources(f: Function, base: Env)
    requires Tidy(f) && Pinnable(f.params, base)
    ensures var writes, binders := BodyWrites(f.body, Nil), BodyBinders(f.body);
            var start := Unassigned(base, writes);
            var picked := PinPicks(binders, base, start);
            && Fresh(binders, base)
            && PicksDone(binders, start, picked)
            && LocalsDone(binders, writes, picked, WithLocals(f, base))
  {
    var writes, binders := BodyWrites(f.body, Nil), BodyBinders(f.body);
    var start := Unassigned(base, writes);
    PicksAreDone(binders, binders, base, start, start);
    var picked := PinPicks(binders, base, start);
    forall j | 0 <= j < |binders| && binders[j].Local?
      ensures Var(binders[j].x) !in picked
    {
      assert Var(binders[j].x) !in start;
    }
    LocalsAreDone(0, binders, writes, base, picked, picked);
    assert binders[0..] == binders;
  }

  lemma PinsFromCall(f: Function, base: Env, k: Key)
    requires Tidy(f) && Pinnable(f.params, base) && k in WithLocals(f, base)
    requires k.Member? || k.x in ParamNames(f.params)
    ensures k in base && base[k] == WithLocals(f, base)[k] && !Assigned(k, BodyWrites(f.body, Nil))
  {
    PinSources(f, base);
  }

  /** Every binder of a tidy function binds what the frame pins for it. */
  lemma BindersHold(f: Function, base: Env, b: Binder)
    requires Tidy(f) && Pinnable(f.params, base) && b in BodyBinders(f.body)
    ensures BinderOk(b, FrameOf(f, base))
  {
    PinSources(f, base);
    var writes, binders := BodyWrites(f.body, Nil), BodyBinders(f.body);
    var start := Unassigned(base, writes);
    var picked := PinPicks(binders, base, start);
    var env := WithLocals(f, base);
    forall p
      ensures Member(b.x, p) !in env
    {
      if Member(b.x, p) in env {
        PinsFromCall(f, base, Member(b.x, p));
      }
    }
    var k := Var(b.x);
    if k in env {
      assert k !in start;
      if k in picked {
        var c :| c in binders && PickReason(k, picked[k], c, start);
        PickingIsSole(binders, c);
      } else {
        var c :| LocalReason(k, env[k], c, binders, writes, env);
        OnceIsSole(binders, c);
      }
    }
  }

  /** No write that a run can reach changes what the frame pins. */
  lemma WritesHold(f: Function, base: Env, k: Key)
    requires Tidy(f) && Pinnable(f.params, base) && k in LiveBody(f.body, WithLocals(f, base))
    ensures WriteOk(k, FrameOf(f, base))
  {
    PinSources(f, base);
    var writes, binders := BodyWrites(f.body, Nil), BodyBinders(f.body);
    var start := Unassigned(base, writes);
    var picked := PinPicks(binders, base, start);
    var env := WithLocals(f, base);
    BodyReached(k, f.body, Nil, env);
    var w :| w in writes && w.key == k && !Excluded(w.path, env);
    match k
    case Member(x, p) =>
      if k in env {
        PinsFromCall(f, base, k);
      }
    case Var(x) =>
      forall p
        ensures Member(x, p) !in env
      {
        if Member(x, p) in env {
          PinsFromCall(f, base, Member(x, p));
        }
      }
      if k in env {
        assert k !in start;
        if k in picked {
          var c :| c in binders && PickReason(k, picked[k], c, start);
          PickingIsSole(binders, c);
          assert c.fixed;
        } else {
          var c :| LocalReason(k, env[k], c, binders, writes, env);
          OnceIsSole(binders, c);
          assert c.fixed;
        }
      }
  }
}
