/** One-time approvals bind the exact operation: precision of `createApproval`. */
module AuthorityApprovals {
  import opened Basics
  import opened Canonical
  import opened CanonicalLaws
  import opened AuthorityTerms
  import opened AuthorityState

  lemma NormalKeysDiffer()
    ensures Distinct([Lit("action"), Lit("actor"), Lit("actorChain"), Lit("context"), Lit("principal"),
                      Lit("purpose"), Lit("resource"), Lit("binding")])
  {
    assert |Lit("action")| == 6 && |Lit("actor")| == 5 && |Lit("actorChain")| == 10 && |Lit("principal")| == 9;
    assert |Lit("resource")| == 8 && |Lit("context")| == |Lit("purpose")| == |Lit("binding")| == 7;
    assert Lit("context")[0] == 99 && Lit("purpose")[0] == 112 && Lit("binding")[0] == 98;
  }

  lemma PartKeysDiffer()
    ensures Distinct([Lit("name"), Lit("properties")])
    ensures Distinct([Lit("id"), Lit("properties"), Lit("type")])
    ensures Distinct([Lit("scheme"), Lit("value")])
  {
    assert |Lit("name")| == 4 && |Lit("properties")| == 10 && |Lit("id")| == 2 && |Lit("type")| == 4;
    assert |Lit("scheme")| == 6 && |Lit("value")| == 5;
  }

  /** What a binding contributes to the terms: the evidence reference is not part of them. */
  function BoundTerms(b: Option<Binding>): Option<(Text, Text)> {
    if b.Some? then Some((b.value.scheme, b.value.value)) else None
  }

  /** Equal terms, written out: absent optionals equal their sentinels, and order counts. */
  predicate SameTerms(a: BoundOperation, ab: Option<Binding>, b: BoundOperation, bb: Option<Binding>) {
    && a.principal == b.principal
    && a.actor == b.actor
    && OrElse(a.actorChain, []) == OrElse(b.actorChain, [])
    && a.action.name == b.action.name
    && OrElse(a.action.properties, map[]) == OrElse(b.action.properties, map[])
    && a.resource.kind == b.resource.kind && a.resource.id == b.resource.id
    && OrElse(a.resource.properties, map[]) == OrElse(b.resource.properties, map[])
    && OrElse(a.context, map[]) == OrElse(b.context, map[])
    && a.purpose == b.purpose
    && BoundTerms(ab) == BoundTerms(bb)
  }

  lemma TextsInjective(a: seq<Text>, b: seq<Text>)
    requires Texts(a) == Texts(b)
    ensures a == b
  {
    assert |a| == |b|;
    forall i | 0 <= i < |a| ensures a[i] == b[i] { assert Texts(a)[i] == Texts(b)[i]; }
  }

  lemma ActionValInjective(a: Action, b: Action)
    requires ActionVal(a) == ActionVal(b)
    ensures a.name == b.name && OrElse(a.properties, map[]) == OrElse(b.properties, map[])
  {
    PartKeysDiffer();
    var m, n := ActionVal(a).fields, ActionVal(b).fields;
    assert [Lit("name"), Lit("properties")][0] != [Lit("name"), Lit("properties")][1];
    assert m[Lit("name")] == n[Lit("name")] && m[Lit("properties")] == n[Lit("properties")];
  }

  lemma ResourceValInjective(a: Resource, b: Resource)
    requires ResourceVal(a) == ResourceVal(b)
    ensures a.kind == b.kind && a.id == b.id && OrElse(a.properties, map[]) == OrElse(b.properties, map[])
  {
    PartKeysDiffer();
    var m, n := ResourceVal(a).fields, ResourceVal(b).fields;
    var ks := [Lit("id"), Lit("properties"), Lit("type")];
    assert ks[0] != ks[1] && ks[0] != ks[2] && ks[1] != ks[2];
    assert m[Lit("id")] == n[Lit("id")] && m[Lit("properties")] == n[Lit("properties")] && m[Lit("type")] == n[Lit("type")];
  }

  lemma BindingValInjective(a: Binding, b: Binding)
    requires BindingVal(a) == BindingVal(b)
    ensures a.scheme == b.scheme && a.value == b.value
  {
    PartKeysDiffer();
    var m, n := BindingVal(a).fields, BindingVal(b).fields;
    assert [Lit("scheme"), Lit("value")][0] != [Lit("scheme"), Lit("value")][1];
    assert m[Lit("scheme")] == n[Lit("scheme")] && m[Lit("value")] == n[Lit("value")];
  }

  /** Each part of the normal form can be read back from it. */
  lemma NormalParts(a: BoundOperation, ab: Option<Binding>)
    ensures var m := Normalize(a, ab).fields;
      && Lit("action") in m && m[Lit("action")] == ActionVal(a.action)
      && Lit("actor") in m && m[Lit("actor")] == VStr(a.actor)
      && Lit("actorChain") in m && m[Lit("actorChain")] == VArr(Texts(OrElse(a.actorChain, [])))
      && Lit("context") in m && m[Lit("context")] == VObj(OrElse(a.context, map[]))
      && Lit("principal") in m && m[Lit("principal")] == VStr(a.principal)
      && Lit("purpose") in m && m[Lit("purpose")] == (if a.purpose.Some? then VStr(a.purpose.value) else VNull)
      && Lit("resource") in m && m[Lit("resource")] == ResourceVal(a.resource)
      && (Lit("binding") in m <==> ab.Some?)
      && (ab.Some? ==> m[Lit("binding")] == BindingVal(ab.value))
  {
    NormalKeysDiffer();
    var ks := [Lit("action"), Lit("actor"), Lit("actorChain"), Lit("context"), Lit("principal"),
               Lit("purpose"), Lit("resource"), Lit("binding")];
    assert forall i, j :: 0 <= i < j < 8 ==> ks[i] != ks[j];
    assert ks[0] == Lit("action") && ks[1] == Lit("actor") && ks[2] == Lit("actorChain") && ks[3] == Lit("context");
    assert ks[4] == Lit("principal") && ks[5] == Lit("purpose") && ks[6] == Lit("resource") && ks[7] == Lit("binding");
  }

  /** The normal form loses exactly the difference between absent and sentinel. */
  lemma NormalFormDetermines(a: BoundOperation, ab: Option<Binding>, b: BoundOperation, bb: Option<Binding>)
    ensures Normalize(a, ab) == Normalize(b, bb) <==> SameTerms(a, ab, b, bb)
  {
    if Normalize(a, ab) == Normalize(b, bb) {
      NormalParts(a, ab);
      NormalParts(b, bb);
      ActionValInjective(a.action, b.action);
      ResourceValInjective(a.resource, b.resource);
      TextsInjective(OrElse(a.actorChain, []), OrElse(b.actorChain, []));
      if ab.Some? { BindingValInjective(ab.value, bb.value); }
    }
  }

  lemma DigestDetermines(a: BoundOperation, ab: Option<Binding>, b: BoundOperation, bb: Option<Binding>)
    ensures DigestFor(a, ab) == DigestFor(b, bb) <==> SameTerms(a, ab, b, bb)
  {
    NormalFormDetermines(a, ab, b, bb);
    if DigestFor(a, ab) == DigestFor(b, bb) {
      Sha256Injective(Print(Normalize(a, ab)), Print(Normalize(b, bb)));
      PrintInjective(Normalize(a, ab), Normalize(b, bb));
    }
  }

  /**
   * A minted approval is an exact hit for precisely the operation, ingress and binding whose
   * normal form is the minted one, provided the operation carries a context at all: the engine
   * digests a missing context as an empty one but then compares it unequal.
   */
  lemma MintedHitsExactly(p: ApprovalParams, at: int, q: Request)
    ensures ApprovalExact(Minted(p, at), DemandOf(q)) <==>
      && q.operation.context.Some?
      && Normalize(BindIngress(q.operation, q.ingress), q.binding) == Normalize(MintedOperation(p), p.binding)
  {
    var op := BindIngress(q.operation, q.ingress);
    DigestDetermines(op, q.binding, MintedOperation(p), p.binding);
    NormalFormDetermines(op, q.binding, MintedOperation(p), p.binding);
  }

  /** The exception has a witness: same normal form, no context, no hit. */
  lemma MissingContextMisses(p: ApprovalParams, at: int, q: Request)
    requires p.context.None? && q.operation.context.None?
    requires q.operation.action == p.action && q.operation.resource == p.resource && q.operation.purpose == p.purpose
    requires q.ingress.principal == p.principal && q.ingress.id == p.actor && q.ingress.chain == p.chain
    requires q.binding == p.binding
    ensures Normalize(BindIngress(q.operation, q.ingress), q.binding) == Normalize(MintedOperation(p), p.binding)
    ensures !ApprovalExact(Minted(p, at), DemandOf(q))
    ensures ApprovalExact(Minted(p, at), DemandOf(q.(operation := q.operation.(context := Some(map[])))))
  {
    NormalFormDetermines(BindIngress(q.operation, q.ingress), q.binding, MintedOperation(p), p.binding);
    var r := q.(operation := q.operation.(context := Some(map[])));
    MintedHitsExactly(p, at, r);
    NormalFormDetermines(BindIngress(r.operation, r.ingress), r.binding, MintedOperation(p), p.binding);
  }
}
