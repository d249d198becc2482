// A small evaluator for the part of Cedar the policies use: entity hierarchy, attribute
// access that can fail, short-circuit `&&`, default deny, forbid over permit, and policies
// that fail to evaluate left out of the verdict (Cedar Policy Language Reference Guide,
// "Authorization in Cedar").
module Cedar {
  import opened Common

  datatype Action =
    | OrgAddUser | OrgRemoveUser | OrgChangeRole
    | TeamCreate | TeamDelete | TeamAddMember | TeamRemoveMember | TeamChangeRole
    | OrgView | TeamView
    | WorkflowList | WorkflowView | WorkflowCreate | WorkflowUpdate | WorkflowDelete
    | WorkflowRun | WorkflowExport | WorkflowProtectExport | WorkflowRunExported
    | RoleCreate | RoleDelete | ApiKeyCreate | ApiKeyRevoke

  datatype ActionGroup = Governance | OrgAdministrable

  // Who a request speaks for. A non-uuid subject is the anonymous principal.
  datatype Subject = Anonymous | Account(id: Id)

  datatype Uid =
    | UserUid(subject: Subject)
    | CapUid(text: string)
    | OrgUid(id: Id)
    | TeamUid(id: Id)
    | WorkflowUid(id: Id)
    | ActionUid(action: Action)
    | GroupUid(group: ActionGroup)

  // Attribute names of resources and of the request context.
  datatype Attr =
    | Org | TeamOf | OrgAdmins | Can(cap: Capability) | Exported | Visibility | PasswordProtected
    | AuthMethod | PasswordVerified | ApiKeyScopes | RequiredScope | ApiKeyOrg

  datatype Value =
    | Bool(b: bool)
    | Str(s: string)
    | StrSet(strs: set<string>)
    | Ref(uid: Uid)
    | Record(fields: map<Attr, Value>)

  datatype EntityData = EntityData(attrs: map<Attr, Value>, parents: set<Uid>)

  type Entities = map<Uid, EntityData>

  datatype Request = Request(principal: Uid, action: Uid, resource: Uid, context: map<Attr, Value>)

  datatype Variable = ThePrincipal | TheResource | TheContext

  datatype Expr =
    | Lit(value: Value)
    | Var(variable: Variable)
    | Get(base: Expr, attr: Attr)
    | Has(base: Expr, attr: Attr)
    | In(left: Expr, right: Expr)
    | Eq(left: Expr, right: Expr)
    | And(left: Expr, right: Expr)
    | Not(operand: Expr)
    | Contains(left: Expr, right: Expr)

  // ---- hierarchy ------------------------------------------------------------------------

  function AllParents(es: Entities): set<Uid> {
    set u, p | u in es && p in es[u].parents :: p
  }

  function ParentsOf(es: Entities, us: set<Uid>): (ps: set<Uid>)
    ensures ps <= AllParents(es)
  {
    set u, p | u in us && u in es && p in es[u].parents :: p
  }

  lemma ClosureDescends(es: Entities, us: set<Uid>)
    requires us + ParentsOf(es, us) != us
    ensures AllParents(es) - (us + ParentsOf(es, us)) < AllParents(es) - us
  {
    var next := us + ParentsOf(es, us);
    assert !(next <= us);
    var x :| x in next && x !in us;
    assert x in AllParents(es) - us && x !in AllParents(es) - next;
  }

  // Everything reachable over parent edges, the start included.
  function Closure(es: Entities, us: set<Uid>): set<Uid>
    decreases AllParents(es) - us
  {
    var next := us + ParentsOf(es, us);
    if next == us then us
    else
      ClosureDescends(es, us);
      Closure(es, next)
  }

  // `u in v`: reflexive and transitive.
  predicate IsIn(es: Entities, u: Uid, v: Uid) {
    v in Closure(es, {u})
  }

  // The reference definition: a chain of parent edges from u to v.
  ghost predicate Chain(es: Entities, path: seq<Uid>, u: Uid, v: Uid) {
    && |path| > 0 && path[0] == u
    && if |path| == 1 then u == v
       else u in es && path[1] in es[u].parents && Chain(es, path[1..], path[1], v)
  }

  // ---- expressions ------------------------------------------------------------------------

  datatype EvalResult = Ok(value: Value) | Fault

  function GetAttr(es: Entities, base: Value, attr: Attr): EvalResult {
    match base
    case Ref(u) => if u in es && attr in es[u].attrs then Ok(es[u].attrs[attr]) else Fault
    case Record(fields) => if attr in fields then Ok(fields[attr]) else Fault
    case _ => Fault
  }

  function HasAttr(es: Entities, base: Value, attr: Attr): EvalResult {
    match base
    case Ref(u) => Ok(Bool(u in es && attr in es[u].attrs))
    case Record(fields) => Ok(Bool(attr in fields))
    case _ => Fault
  }

  function Eval(e: Expr, q: Request, es: Entities): EvalResult {
    match e
    case Lit(v) => Ok(v)
    case Var(ThePrincipal) => Ok(Ref(q.principal))
    case Var(TheResource) => Ok(Ref(q.resource))
    case Var(TheContext) => Ok(Record(q.context))
    case Get(base, attr) =>
      var b := Eval(base, q, es);
      if b.Ok? then GetAttr(es, b.value, attr) else Fault
    case Has(base, attr) =>
      var b := Eval(base, q, es);
      if b.Ok? then HasAttr(es, b.value, attr) else Fault
    case In(left, right) =>
      var l, r := Eval(left, q, es), Eval(right, q, es);
      if l.Ok? && l.value.Ref? && r.Ok? && r.value.Ref? then Ok(Bool(IsIn(es, l.value.uid, r.value.uid))) else Fault
    case Eq(left, right) =>
      var l, r := Eval(left, q, es), Eval(right, q, es);
      if l.Ok? && r.Ok? then Ok(Bool(l.value == r.value)) else Fault
    case And(left, right) =>
      var l := Eval(left, q, es);
      if l == Ok(Bool(false)) then l
      else if l == Ok(Bool(true)) then
        var r := Eval(right, q, es);
        if r.Ok? && r.value.Bool? then r else Fault
      else Fault
    case Not(operand) =>
      var o := Eval(operand, q, es);
      if o.Ok? && o.value.Bool? then Ok(Bool(!o.value.b)) else Fault
    case Contains(left, right) =>
      var l, r := Eval(left, q, es), Eval(right, q, es);
      if l.Ok? && l.value.StrSet? && r.Ok? then Ok(Bool(r.value.Str? && r.value.s in l.value.strs)) else Fault
  }

  // ---- policies -----------------------------------------------------------------------------

  datatype Effect = Permit | Forbid

  // `action`, `action == A`, and `action in [...]` or `action in Group`.
  datatype ActionScope = AnyAction | Is(action: Uid) | InAny(actions: set<Uid>)

  datatype Condition = Always | When(expr: Expr) | Unless(expr: Expr)

  datatype Policy = Policy(name: string, effect: Effect, scope: ActionScope, condition: Condition)

  datatype PolicyResult = Satisfied | Unsatisfied | Errored

  predicate InScope(scope: ActionScope, q: Request, es: Entities) {
    match scope
    case AnyAction => true
    case Is(a) => q.action == a
    case InAny(actions) => exists a :: a in actions && IsIn(es, q.action, a)
  }

  function Conclude(r: EvalResult, wanted: bool): PolicyResult {
    if r.Ok? && r.value.Bool? then (if r.value.b == wanted then Satisfied else Unsatisfied) else Errored
  }

  function EvalPolicy(p: Policy, q: Request, es: Entities): PolicyResult {
    if !InScope(p.scope, q, es) then Unsatisfied
    else
      match p.condition
      case Always => Satisfied
      case When(e) => Conclude(Eval(e, q, es), true)
      case Unless(e) => Conclude(Eval(e, q, es), false)
  }

  // The policies with the given effect and result, by position.
  function Select(ps: seq<Policy>, q: Request, es: Entities, effect: Effect, result: PolicyResult): set<nat> {
    set i: nat | i < |ps| && ps[i].effect == effect && EvalPolicy(ps[i], q, es) == result
  }

  datatype Response = Response(allowed: bool, reasons: set<nat>, errors: set<nat>)

  function IsAuthorized(ps: seq<Policy>, q: Request, es: Entities): Response {
    var forbids := Select(ps, q, es, Forbid, Satisfied);
    var permits := Select(ps, q, es, Permit, Satisfied);
    Response(forbids == {} && permits != {},
             if forbids != {} then forbids else permits,
             Select(ps, q, es, Forbid, Errored) + Select(ps, q, es, Permit, Errored))
  }

  // ---- the hierarchy is reachability ------------------------------------------------------------

  lemma {:induction false} ClosureGrows(es: Entities, us: set<Uid>)
    ensures us <= Closure(es, us) && ParentsOf(es, Closure(es, us)) <= Closure(es, us)
    decreases AllParents(es) - us
  {
    var next := us + ParentsOf(es, us);
    if next != us {
      ClosureDescends(es, us);
      ClosureGrows(es, next);
    }
  }

  lemma {:induction false} ClosureReached(es: Entities, us: set<Uid>, v: Uid) returns (u: Uid, path: seq<Uid>)
    requires v in Closure(es, us)
    ensures u in us && Chain(es, path, u, v)
    decreases AllParents(es) - us
  {
    var next := us + ParentsOf(es, us);
    if next == us {
      u, path := v, [v];
    } else {
      ClosureDescends(es, us);
      u, path := ClosureReached(es, next, v);
      if u !in us {
        var w :| w in us && w in es && u in es[w].parents;
        assert ([w] + path)[1..] == path;
        u, path := w, [w] + path;
      }
    }
  }

  lemma {:induction false} ChainStaysIn(es: Entities, us: set<Uid>, path: seq<Uid>, u: Uid, v: Uid)
    requires Chain(es, path, u, v) && u in us && ParentsOf(es, us) <= us
    ensures v in us
    decreases |path|
  {
    if |path| > 1 {
      assert path[1] in ParentsOf(es, us);
      ChainStaysIn(es, us, path[1..], path[1], v);
    }
  }

  ghost predicate Reachable(es: Entities, u: Uid, v: Uid) {
    exists path :: Chain(es, path, u, v)
  }

  // `in` is exactly reachability over parent edges.
  lemma InIsReachability(es: Entities, u: Uid, v: Uid)
    ensures IsIn(es, u, v) <==> Reachable(es, u, v)
  {
    ClosureGrows(es, {u});
    assert u in {u};
    if IsIn(es, u, v) {
      var w, path := ClosureReached(es, {u}, v);
    }
    forall path | Chain(es, path, u, v) ensures IsIn(es, u, v) {
      ChainStaysIn(es, Closure(es, {u}), path, u, v);
    }
  }

  // When the parents of u have no parents themselves, `in` looks one edge up.
  lemma InOneEdgeUp(es: Entities, u: Uid, v: Uid)
    requires u in es && forall p :: p in es[u].parents && p in es ==> es[p].parents == {}
    ensures IsIn(es, u, v) <==> v == u || v in es[u].parents
  {
    var near := {u} + es[u].parents;
    ClosureGrows(es, {u});
    assert forall p :: p in es[u].parents ==> p in ParentsOf(es, {u});
    assert ParentsOf(es, near) <= near;
    if IsIn(es, u, v) {
      var w, path := ClosureReached(es, {u}, v);
      ChainStaysIn(es, near, path, u, v);
    }
    if v in es[u].parents {
      assert v in ParentsOf(es, Closure(es, {u}));
    }
  }
}
