/**
 * Vocabulary of the authority engine (src/core/authority.ts): grants, approvals, policies, the
 * bound demand, its digest, and the matching rules. All of it is pure.
 */
module AuthorityTerms {
  import opened Basics
  import opened Canonical
  import opened Policy
  import opened Coverage

  type Bag = map<Text, Val>

  datatype Selector = Exact(id: Text) | OneOf(ids: seq<Text>) | AnyActor

  datatype BoundOp = BEq | BLe | BGe | BIn | BSubset

  datatype Bound = Bound(path: Text, op: BoundOp, value: Val)

  datatype Action = Action(name: Text, properties: Option<Bag>)

  datatype Resource = Resource(kind: Text, id: Text, properties: Option<Bag>)

  datatype ResourceFilter = ResourceFilter(kind: Option<Text>, id: Option<Text>)

  datatype Binding = Binding(scheme: Text, value: Text, evidenceRef: Text)

  datatype Grant = Grant(
    id: Text, principal: Text, actor: Selector, action: Action, resource: Option<ResourceFilter>,
    purpose: Option<Text>, bounds: seq<Bound>, nbf: Option<int>, exp: Option<int>, maxUses: Option<int>)

  datatype Approval = Approval(
    id: Text, principal: Text, actor: Text, chain: Option<seq<Text>>, action: Action, resource: Resource,
    context: Option<Bag>, purpose: Option<Text>, binding: Option<Binding>,
    termsDigest: Text, exp: int, maxUses: int)

  datatype Constraint = Constraint(
    id: Text, actor: Option<Selector>, actionName: Option<Text>, purpose: Option<Text>,
    bounds: seq<Bound>, nbf: Option<int>, exp: Option<int>)

  /** What the caller asks for. The context may be missing: the normal form allows for it. */
  datatype Operation = Operation(action: Action, resource: Resource, context: Option<Bag>, purpose: Option<Text>)

  datatype Ingress = Ingress(id: Text, principal: Text, proofRef: Text, chain: Option<seq<Text>>)

  datatype BoundOperation = BoundOperation(
    principal: Text, actor: Text, actorChain: Option<seq<Text>>,
    action: Action, resource: Resource, context: Option<Bag>, purpose: Option<Text>)

  datatype Demand = Demand(op: BoundOperation, termsDigest: Text)

  // ---------------------------------------------------------------- the normal form and its digest

  function Texts(ts: seq<Text>): (vs: seq<Val>)
    ensures |vs| == |ts| && forall i :: 0 <= i < |ts| ==> vs[i] == VStr(ts[i])
  {
    seq(|ts|, i requires 0 <= i < |ts| => VStr(ts[i]))
  }

  function ActionVal(a: Action): Val {
    VObj(map[Lit("name") := VStr(a.name), Lit("properties") := VObj(OrElse(a.properties, map[]))])
  }

  function ResourceVal(r: Resource): Val {
    VObj(map[Lit("id") := VStr(r.id), Lit("properties") := VObj(OrElse(r.properties, map[])), Lit("type") := VStr(r.kind)])
  }

  function BindingVal(b: Binding): Val {
    VObj(map[Lit("scheme") := VStr(b.scheme), Lit("value") := VStr(b.value)])
  }

  /** The canonical form that is digested: absent optionals become sentinels. */
  function Normalize(op: BoundOperation, binding: Option<Binding>): Val {
    var core := map[
      Lit("action") := ActionVal(op.action),
      Lit("actor") := VStr(op.actor),
      Lit("actorChain") := VArr(Texts(OrElse(op.actorChain, []))),
      Lit("context") := VObj(OrElse(op.context, map[])),
      Lit("principal") := VStr(op.principal),
      Lit("purpose") := if op.purpose.Some? then VStr(op.purpose.value) else VNull,
      Lit("resource") := ResourceVal(op.resource)];
    VObj(if binding.Some? then core[Lit("binding") := BindingVal(binding.value)] else core)
  }

  function DigestFor(op: BoundOperation, binding: Option<Binding>): Text {
    Sha256(Print(Normalize(op, binding)))
  }

  function BindIngress(o: Operation, ingress: Ingress): BoundOperation {
    BoundOperation(ingress.principal, ingress.id, ingress.chain, o.action, o.resource, o.context, o.purpose)
  }

  function DemandFor(o: Operation, ingress: Ingress, binding: Option<Binding>): Demand {
    var op := BindIngress(o, ingress);
    Demand(op, DigestFor(op, binding))
  }

  predicate NonEmpty(ts: seq<Text>) {
    forall t :: t in ts ==> t != []
  }

  predicate IngressOk(i: Ingress) {
    i.id != [] && i.principal != [] && i.proofRef != [] && (i.chain.Some? ==> NonEmpty(i.chain.value))
  }

  predicate BindingOk(b: Option<Binding>) {
    b.Some? ==> b.value.scheme == Lit("ap2") && b.value.value != [] && b.value.evidenceRef != []
  }

  // ---------------------------------------------------------------- the demand as a value

  function Optional(key: string, v: Option<Val>): Bag {
    if v.Some? then map[Lit(key) := v.value] else map[]
  }

  function BagVal(b: Option<Bag>): Option<Val> {
    if b.Some? then Some(VObj(b.value)) else None
  }

  /** The demand as selectors see it. */
  function DemandVal(d: Demand): Val {
    var op := d.op;
    VObj(map[
           Lit("principal") := VStr(op.principal),
           Lit("actor") := VStr(op.actor),
           Lit("action") := VObj(map[Lit("name") := VStr(op.action.name)] + Optional("properties", BagVal(op.action.properties))),
           Lit("resource") := VObj(map[Lit("type") := VStr(op.resource.kind), Lit("id") := VStr(op.resource.id)]
                                   + Optional("properties", BagVal(op.resource.properties))),
           Lit("termsDigest") := VStr(d.termsDigest)]
         + Optional("actorChain", if op.actorChain.Some? then Some(VArr(Texts(op.actorChain.value))) else None)
         + Optional("context", BagVal(op.context))
         + Optional("purpose", TextVal(op.purpose)))
  }

  // ---------------------------------------------------------------- matching

  predicate CanonicalEqual(a: Val, b: Val) {
    Print(a) == Print(b)
  }

  predicate SameBag(a: Option<Bag>, b: Option<Bag>) {
    CanonicalEqual(VObj(OrElse(a, map[])), VObj(OrElse(b, map[])))
  }

  predicate ActorMatches(sel: Selector, actor: Text) {
    match sel
    case Exact(id) => actor == id
    case OneOf(ids) => actor in ids
    case AnyActor => true
  }

  predicate Scalar(v: Val) { v.VStr? || v.VNum? || v.VBool? }

  predicate BoundHolds(b: Bound, d: Demand) {
    var r := Resolve(DemandVal(d), b.path);
    r.Found? &&
    match b.op
    case BEq => CanonicalEqual(r.value, b.value)
    case BLe => r.value.VNum? && b.value.VNum? && r.value.num <= b.value.num
    case BGe => r.value.VNum? && b.value.VNum? && r.value.num >= b.value.num
    case BIn => Scalar(r.value) && b.value.VArr? && exists x :: x in b.value.items && CanonicalEqual(x, r.value)
    case BSubset => r.value.VArr? && b.value.VArr? && forall x :: x in r.value.items ==> x.VStr? && x in b.value.items
  }

  predicate BoundsHold(bs: seq<Bound>, d: Demand) {
    forall b :: b in bs ==> BoundHolds(b, d)
  }

  predicate GrantMatches(g: Grant, d: Demand, ignoreActor: bool) {
    var op := d.op;
    && g.principal == op.principal
    && (ignoreActor || ActorMatches(g.actor, op.actor))
    && IsCovered(g.action.name, op.action.name)
    && (g.action.properties.Some? ==> SameBag(g.action.properties, op.action.properties))
    && (g.resource.Some? ==>
          && (g.resource.value.kind.Some? ==> g.resource.value.kind.value == op.resource.kind)
          && (g.resource.value.id.Some? ==> g.resource.value.id.value == op.resource.id))
    && (g.purpose.Some? ==> op.purpose == g.purpose)
    && BoundsHold(g.bounds, d)
  }

  predicate ApprovalIdentity(a: Approval, d: Demand, ignoreActor: bool) {
    && a.principal == d.op.principal
    && (ignoreActor || a.actor == d.op.actor)
    && a.action.name == d.op.action.name
    && a.resource.kind == d.op.resource.kind && a.resource.id == d.op.resource.id
    && a.purpose == d.op.purpose
  }

  /** Canonicalizing a missing context throws, and a throw compares unequal. */
  predicate ApprovalExact(a: Approval, d: Demand) {
    && ApprovalIdentity(a, d, false)
    && SameBag(a.action.properties, d.op.action.properties)
    && SameBag(a.resource.properties, d.op.resource.properties)
    && d.op.context.Some? && SameBag(a.context, d.op.context)
    && OrElse(a.chain, []) == OrElse(d.op.actorChain, [])
    && a.termsDigest == d.termsDigest
  }

  predicate PolicyApplies(p: Constraint, d: Demand) {
    && (p.actor.Some? ==> ActorMatches(p.actor.value, d.op.actor))
    && (p.actionName.Some? ==> IsCovered(p.actionName.value, d.op.action.name))
    && (p.purpose.Some? ==> d.op.purpose == p.purpose)
  }

  predicate PolicyHolds(p: Constraint, d: Demand, now: int) {
    && (p.nbf.Some? ==> now >= p.nbf.value - SKEW)
    && (p.exp.Some? ==> now <= p.exp.value + SKEW)
    && BoundsHold(p.bounds, d)
  }

  // ---------------------------------------------------------------- registration checks

  predicate TimeUsesOk(nbf: Option<int>, exp: Option<int>, maxUses: Option<int>) {
    && (nbf.Some? ==> nbf.value >= 0) && (exp.Some? ==> exp.value >= 0) && (maxUses.Some? ==> maxUses.value >= 1)
  }

  predicate SelectorOk(s: Selector) {
    match s
    case Exact(id) => id != []
    case OneOf(ids) => ids != [] && NonEmpty(ids)
    case AnyActor => true
  }

  predicate BoundOk(b: Bound) {
    && StartsWith(b.path, [46]) && |b.path| >= 2
    && (b.op == BLe || b.op == BGe ==> b.value.VNum?)
    && (b.op == BIn ==> b.value.VArr?)
    && (b.op == BSubset ==> b.value.VArr? && forall x :: x in b.value.items ==> x.VStr?)
  }

  predicate ActionNameOk(name: Text) {
    StartsWith(name, [SLASH]) && name != [SLASH]
  }

  predicate OptionalNonEmpty(t: Option<Text>) {
    t.Some? ==> t.value != []
  }

  predicate PayBounded(bs: seq<Bound>) {
    && (exists b :: b in bs && b.path == Lit(".context.amount") && (b.op == BLe || b.op == BEq || b.op == BIn))
    && (exists b :: b in bs && b.path == Lit(".context.currency") && b.op == BEq && b.value.VStr? && b.value.text != [])
  }

  predicate GrantOk(g: Grant) {
    && g.id != [] && SelectorOk(g.actor) && ActionNameOk(g.action.name)
    && (g.resource.Some? ==> OptionalNonEmpty(g.resource.value.kind) && OptionalNonEmpty(g.resource.value.id))
    && OptionalNonEmpty(g.purpose)
    && TimeUsesOk(g.nbf, g.exp, g.maxUses)
    && (forall b :: b in g.bounds ==> BoundOk(b))
    && (StartsWith(g.action.name, Lit("/pay")) ==> PayBounded(g.bounds))
  }

  predicate ApprovalOk(a: Approval) {
    && a.id != [] && a.principal != [] && a.actor != []
    && ActionNameOk(a.action.name)
    && a.resource.kind != [] && a.resource.id != []
    && OptionalNonEmpty(a.purpose)
    && (a.chain.Some? ==> NonEmpty(a.chain.value))
    && a.termsDigest != []
    && BindingOk(a.binding)
    && a.exp >= 0 && a.maxUses >= 1
  }

  predicate PolicyOk(p: Constraint) {
    && p.id != []
    && (p.actor.Some? ==> SelectorOk(p.actor.value))
    && (p.actionName.Some? ==> StartsWith(p.actionName.value, [SLASH]))
    && OptionalNonEmpty(p.purpose)
    && TimeUsesOk(p.nbf, p.exp, None)
    && (forall b :: b in p.bounds ==> BoundOk(b))
  }
}
