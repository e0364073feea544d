/**
 * What can be registered and what it then stands for (`addGrant`, `addApproval`, `createApproval`,
 * `addPolicy`, src/core/authority.ts): the conditions written out, the ceiling on every payment a
 * grant can allow, and the one use of a minted approval.
 */
module Registration {
  import opened Basics
  import opened Canonical
  import opened Coverage
  import opened OrderedMap
  import opened AuthorityTerms
  import opened AuthorityState
  import opened AuthorityMeaning
  import C = CanonicalLaws
  import P = PolicyMeaning
  import L = AuthorityLaws
  import R = AuthoritySnapshots

  // ---------------------------------------------------------------- what registration demands

  predicate TimesOk(nbf: Option<int>, exp: Option<int>, maxUses: Option<int>) {
    && (nbf.Some? ==> 0 <= nbf.value) && (exp.Some? ==> 0 <= exp.value) && (maxUses.Some? ==> 1 <= maxUses.value)
  }

  predicate NamesSomeone(sel: Selector) {
    match sel
    case Exact(id) => id != []
    case OneOf(ids) => |ids| > 0 && [] !in ids
    case AnyActor => true
  }

  /** A slash and something after it. */
  ghost predicate CommandName(name: Text) { exists rest :: rest != [] && name == [47] + rest }

  /** A path of at least one step, and a value of the kind the operator compares with. */
  ghost predicate BoundReadable(b: Bound) {
    && (exists rest :: rest != [] && b.path == [46] + rest)
    && match b.op
       case BEq => true
       case BLe => b.value.VNum?
       case BGe => b.value.VNum?
       case BIn => b.value.VArr?
       case BSubset => exists ts: seq<Text> :: b.value == VArr(Texts(ts))
  }

  /** The amount is capped or listed, and one currency fixed. */
  ghost predicate SpendsWithin(g: Grant) {
    && (exists b :: b in g.bounds && b.path == Lit(".context.amount") && b.op in {BLe, BEq, BIn})
    && (exists code :: code != [] && Bound(Lit(".context.currency"), BEq, VStr(code)) in g.bounds)
  }

  ghost predicate GrantAcceptable(g: Grant) {
    && g.id != [] && NamesSomeone(g.actor) && CommandName(g.action.name)
    && (g.resource.Some? ==> g.resource.value.kind != Some([]) && g.resource.value.id != Some([]))
    && g.purpose != Some([])
    && TimesOk(g.nbf, g.exp, g.maxUses)
    && (forall b :: b in g.bounds ==> BoundReadable(b))
    && ((exists rest :: g.action.name == Lit("/pay") + rest) ==> SpendsWithin(g))
  }

  ghost predicate ApprovalAcceptable(a: Approval) {
    && a.id != [] && a.principal != [] && a.actor != [] && CommandName(a.action.name)
    && a.resource.kind != [] && a.resource.id != [] && a.purpose != Some([]) && a.termsDigest != []
    && (a.chain.Some? ==> [] !in a.chain.value)
    && (a.binding.Some? ==> a.binding.value.scheme == Lit("ap2") && a.binding.value.value != [] && a.binding.value.evidenceRef != [])
    && 0 <= a.exp && 1 <= a.maxUses
  }

  ghost predicate PolicyAcceptable(p: Constraint) {
    && p.id != [] && (p.actor.Some? ==> NamesSomeone(p.actor.value))
    && (p.actionName.Some? ==> exists rest :: p.actionName.value == [47] + rest)
    && p.purpose != Some([])
    && TimesOk(p.nbf, p.exp, None)
    && (forall b :: b in p.bounds ==> BoundReadable(b))
  }

  /** No grant, approval or policy has the id. */
  predicate Unused(s: State, id: Text) {
    && (forall g :: g in s.grants ==> g.id != id)
    && (forall a :: a in s.approvals ==> a.id != id)
    && (forall p :: p in s.policies ==> p.id != id)
  }

  // ---------------------------------------------------------------- the checks are these

  lemma StartsMeans(t: Text, prefix: Text)
    ensures StartsWith(t, prefix) <==> exists rest :: t == prefix + rest
  {
    if StartsWith(t, prefix) { assert t == prefix + t[|prefix|..]; }
  }

  lemma CommandNameMeans(name: Text)
    ensures ActionNameOk(name) <==> CommandName(name)
  {
    if ActionNameOk(name) { assert name == [47] + name[1..]; }
  }

  lemma AllTexts(vs: seq<Val>)
    ensures (forall v :: v in vs ==> v.VStr?) <==> exists ts: seq<Text> :: vs == Texts(ts)
  {
    if forall v :: v in vs ==> v.VStr? {
      var ts := TextsOf(vs);
      forall i | 0 <= i < |vs| ensures vs[i] == VStr(ts[i]) { assert vs[i] in vs; }
      assert vs == Texts(ts);
    }
  }

  function TextsOf(vs: seq<Val>): (ts: seq<Text>)
    requires forall v :: v in vs ==> v.VStr?
    ensures |ts| == |vs| && forall i :: 0 <= i < |vs| ==> ts[i] == vs[i].text
  {
    if vs == [] then [] else [vs[0].text] + TextsOf(vs[1..])
  }

  lemma BoundReadableMeans(b: Bound)
    ensures BoundOk(b) <==> BoundReadable(b)
  {
    if StartsWith(b.path, [46]) && |b.path| >= 2 { assert b.path == [46] + b.path[1..]; }
    if b.op.BSubset? && b.value.VArr? {
      AllTexts(b.value.items);
      if ts: seq<Text> :| b.value.items == Texts(ts) { assert b.value == VArr(Texts(ts)); }
    }
  }

  lemma SpendsMeans(g: Grant)
    ensures PayBounded(g.bounds) <==> SpendsWithin(g)
  {
    if b :| b in g.bounds && b.path == Lit(".context.currency") && b.op == BEq && b.value.VStr? && b.value.text != [] {
      assert b == Bound(Lit(".context.currency"), BEq, VStr(b.value.text));
    }
  }

  lemma GrantChecks(g: Grant)
    ensures GrantOk(g) <==> GrantAcceptable(g)
  {
    CommandNameMeans(g.action.name);
    forall b | b in g.bounds ensures BoundOk(b) <==> BoundReadable(b) { BoundReadableMeans(b); }
    StartsMeans(g.action.name, Lit("/pay"));
    SpendsMeans(g);
  }

  lemma ApprovalChecks(a: Approval)
    ensures ApprovalOk(a) <==> ApprovalAcceptable(a)
  {
    CommandNameMeans(a.action.name);
  }

  lemma PolicyChecks(p: Constraint)
    ensures PolicyOk(p) <==> PolicyAcceptable(p)
  {
    if p.actionName.Some? { StartsMeans(p.actionName.value, [47]); }
    forall b | b in p.bounds ensures BoundOk(b) <==> BoundReadable(b) { BoundReadableMeans(b); }
  }

  lemma UnusedMeans(s: State, id: Text)
    ensures Registered(s, id) <==> !Unused(s, id)
  {}

  // ---------------------------------------------------------------- registration

  /** A grant is taken exactly when its id is unused and it is acceptable; nothing else then changes. */
  lemma GrantTaken(s: State, g: Grant)
    ensures AddGrant(s, g).Some? <==> Unused(s, g.id) && GrantAcceptable(g)
    ensures AddGrant(s, g).Some? ==> AddGrant(s, g).value == s.(grants := s.grants + [g])
  {
    GrantChecks(g);
    UnusedMeans(s, g.id);
  }

  lemma ApprovalTaken(s: State, a: Approval)
    ensures AddApproval(s, a).Some? <==> Unused(s, a.id) && ApprovalAcceptable(a)
    ensures AddApproval(s, a).Some? ==> AddApproval(s, a).value == s.(approvals := s.approvals + [a])
  {
    ApprovalChecks(a);
    UnusedMeans(s, a.id);
  }

  /** A policy's id must never have been revoked either. */
  lemma PolicyTaken(s: State, p: Constraint)
    ensures AddPolicy(s, p).Some? <==> Unused(s, p.id) && (forall e :: e in s.revoked ==> e.0 != p.id) && PolicyAcceptable(p)
    ensures AddPolicy(s, p).Some? ==> AddPolicy(s, p).value == s.(policies := s.policies + [p])
  {
    PolicyChecks(p);
    UnusedMeans(s, p.id);
    EntryMeans(s, p.id);
  }

  // ---------------------------------------------------------------- payments are capped

  /** A cap and a currency that hold for everything the grant can be cited for. */
  ghost predicate Caps(s: State, g: Grant, cap: int, code: Text) {
    forall q :: UsableGrant(s, g, q) ==> SpendsAtMost(q, cap, code)
  }

  predicate SpendsAtMost(q: Request, cap: int, code: Text) {
    && q.operation.context.Some?
    && Lit("amount") in q.operation.context.value && Lit("currency") in q.operation.context.value
    && (var v := q.operation.context.value[Lit("amount")]; v.VNum? ==> v.num <= cap)
    && q.operation.context.value[Lit("currency")] == VStr(code)
  }

  lemma CurrencyPath()
    ensures FieldOfContext(Lit("currency")) == Lit(".context.currency") && P.PlainName(Lit("currency"))
  {
    assert |Lit("currency")| == 8 && |Lit("__proto__")| == 9 && |Lit("constructor")| == 11 && |Lit("prototype")| == 9;
    assert Lit("currency") == [99, 117, 114, 114, 101, 110, 99, 121];
    assert [Lit("context"), Lit("currency")][1..] == [Lit("currency")] && [Lit("currency")][1..] == [];
    assert Lit(".context.currency") == [46] + (Lit("context") + ([46] + (Lit("currency") + [])));
  }

  /** The greatest number in a list. */
  lemma {:induction false} Greatest(vs: seq<Val>) returns (cap: int)
    ensures forall n :: VNum(n) in vs ==> n <= cap
  {
    if vs == [] {
      cap := 0;
    } else {
      cap := Greatest(vs[1..]);
      if vs[0].VNum? && vs[0].num > cap { cap := vs[0].num; }
    }
  }

  lemma BoundCaps(b: Bound) returns (cap: int)
    requires BoundOk(b) && b.op in {BLe, BEq, BIn}
    ensures forall n :: ValueMeets(b, VNum(n)) ==> n <= cap
  {
    if b.value.VArr? {
      cap := Greatest(b.value.items);
    } else {
      cap := if b.value.VNum? then b.value.num else 0;
    }
  }

  lemma CapHolds(s: State, g: Grant, b: Bound, cap: int, code: Text, q: Request)
    requires b in g.bounds && b.path == Lit(".context.amount") && forall n :: ValueMeets(b, VNum(n)) ==> n <= cap
    requires Bound(Lit(".context.currency"), BEq, VStr(code)) in g.bounds && UsableGrant(s, g, q)
    ensures SpendsAtMost(q, cap, code)
  {
    AmountPath();
    CurrencyPath();
    ContextBound(b, DemandOf(q), Lit("amount"));
    ContextBound(Bound(Lit(".context.currency"), BEq, VStr(code)), DemandOf(q), Lit("currency"));
  }

  /** Every acceptable grant whose command begins with /pay has one cap and one currency. */
  lemma PayGrantCaps(s: State, g: Grant) returns (cap: int, code: Text)
    requires GrantAcceptable(g) && exists rest :: g.action.name == Lit("/pay") + rest
    ensures code != [] && Caps(s, g, cap, code)
  {
    GrantChecks(g);
    code :| code != [] && Bound(Lit(".context.currency"), BEq, VStr(code)) in g.bounds;
    var b :| b in g.bounds && b.path == Lit(".context.amount") && b.op in {BLe, BEq, BIn};
    cap := BoundCaps(b);
    forall q | UsableGrant(s, g, q) ensures SpendsAtMost(q, cap, code) { CapHolds(s, g, b, cap, code, q); }
  }

  /** What covers a payment command is itself named /pay something. */
  lemma CoversPay(broad: Text, narrow: Text)
    requires CommandName(broad) && CommandUnder(broad, narrow)
    requires narrow == Lit("/pay") || exists rest :: narrow == Lit("/pay/") + rest
    ensures exists rest :: broad == Lit("/pay") + rest
  {
    var pay := Lit("/pay");
    assert pay == [47, 112, 97, 121] && Lit("/pay/") == pay + [47];
    CommandMeans(broad, narrow);
    assert narrow[..4] == pay;
    if narrow != broad {
      var f := Folder(broad);
      assert f <= narrow && f[|f| - 1] == 47 && narrow[|f| - 1] == 47;
      assert narrow[1] == pay[1] && narrow[2] == pay[2] && narrow[3] == pay[3];
      assert |f| > 4;
    }
    assert broad[..4] == pay;
    assert broad == pay + broad[4..];
  }

  /**
   * In every state that any run of calls, reloads and adoptions can reach: whenever a grant is what
   * allows a request under /pay, one cap and one currency of that grant, the same for all such
   * requests, bound what may be spent.
   */
  lemma PaymentsAreCapped(acts: seq<R.Act>, g: Grant) returns (cap: int, code: Text)
    requires g in R.Reached(acts).grants && exists rest :: g.action.name == Lit("/pay") + rest
    ensures code != [] && Caps(R.Reached(acts), g, cap, code)
  {
    R.ReachedValid(acts);
    GrantChecks(g);
    cap, code := PayGrantCaps(R.Reached(acts), g);
  }

  /** So no grant of any reachable state allows a payment without a cap. */
  lemma AllowedPaymentIsCapped(acts: seq<R.Act>, q: Request) returns (g: Grant, cap: int, code: Text)
    requires Allows(R.Reached(acts), q) && Evaluate(R.Reached(acts), q).value.kind.ByGrant?
    requires q.operation.action.name == Lit("/pay") || exists rest :: q.operation.action.name == Lit("/pay/") + rest
    ensures g in R.Reached(acts).grants && g.id == Evaluate(R.Reached(acts), q).value.authorityId
    ensures code != [] && Caps(R.Reached(acts), g, cap, code) && SpendsAtMost(q, cap, code)
  {
    var s := R.Reached(acts);
    R.ReachedValid(acts);
    CitesFirstGrant(s, q);
    var i :| 0 <= i < |s.grants| && s.grants[i].id == Evaluate(s, q).value.authorityId && UsableGrant(s, s.grants[i], q);
    g := s.grants[i];
    assert GrantOk(g);
    GrantChecks(g);
    CoversPay(g.action.name, q.operation.action.name);
    cap, code := PaymentsAreCapped(acts, g);
  }

  // ---------------------------------------------------------------- minted approvals

  /** What createApproval demands beyond what addApproval does. */
  ghost predicate Mintable(s: State, p: ApprovalParams, now: int) {
    && Unused(s, p.id) && p.id != [] && p.principal != [] && p.actor != [] && CommandName(p.action.name)
    && p.resource.kind != [] && p.resource.id != [] && p.purpose != Some([])
    && (p.chain.Some? ==> [] !in p.chain.value)
    && (p.binding.Some? ==> p.binding.value.scheme == Lit("ap2") && p.binding.value.value != [] && p.binding.value.evidenceRef != [])
    && p.ttlSec > 0.0 && p.ttlSec == p.ttlSec.Floor as real && now as real + p.ttlSec >= 0.0
    && (p.maxUses.Some? ==> p.maxUses.value >= 1)
  }

  lemma DigestFilled(op: BoundOperation, binding: Option<Binding>)
    ensures DigestFor(op, binding) != []
  {
    C.Sha256IsSymbolic(Print(Normalize(op, binding)));
  }

  /** When an approval is minted, and what the minted one says. */
  lemma MintingMeans(s: State, p: ApprovalParams, now: int)
    ensures CreateApproval(s, p, now).Some? <==> Mintable(s, p, now)
    ensures CreateApproval(s, p, now).Some? ==>
      exists a :: CreateApproval(s, p, now).value == s.(approvals := s.approvals + [a])
        && a.id == p.id && a.principal == p.principal && a.actor == p.actor && a.chain == p.chain
        && a.action == p.action && a.resource == p.resource && a.context == p.context && a.purpose == p.purpose
        && a.exp as real == now as real + p.ttlSec && a.maxUses == (if p.maxUses.Some? then p.maxUses.value else 1)
  {
    var a := Minted(p, now);
    ApprovalTaken(s, a);
    CommandNameMeans(p.action.name);
    DigestFilled(MintedOperation(p), p.binding);
    if p.ttlSec == p.ttlSec.Floor as real { assert (now + p.ttlSec.Floor) as real == now as real + p.ttlSec; }
  }
}
