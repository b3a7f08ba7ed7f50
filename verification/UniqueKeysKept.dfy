/** Neither migrating nor patching a document makes a table repeat a key. */
module UniqueKeysKept {
  import opened Outcomes
  import opened Toml
  import opened Migrate
  import opened MigrateEditor
  import opened Finalize
  import opened Projection
  import opened PatchPaths
  import opened RoundTrip

  lemma {:induction false} SetUnique(f: Fields, k: Key, v: Node)
    requires UniqueKeysFields(f) && UniqueKeys(v)
    ensures UniqueKeysFields(Set(f, k, v))
  {
    if f.Field? && f.key != k {
      SetUnique(f.rest, k, v);
    }
  }

  lemma {:induction false} RemoveUnique(f: Fields, k: Key)
    requires UniqueKeysFields(f)
    ensures UniqueKeysFields(Remove(f, k))
  {
    if f.Field? {
      RemoveUnique(f.rest, k);
    }
  }

  lemma {:induction false} ValueUnique(f: Fields, k: Key)
    requires UniqueKeysFields(f) && Has(f, k)
    ensures UniqueKeys(Get(f, k).value)
  {
    if f.key != k {
      ValueUnique(f.rest, k);
    }
  }

  lemma {:induction false} SourceUnique(id: Text)
    ensures UniqueKeys(ManagedSource(id))
  {
    var f := ManagedSource(id).fields;
    assert Get(f.rest, From) == Get(f.rest.rest, From) == None;
    assert UniqueKeysFields(f.rest.rest) && UniqueKeysFields(f.rest);
  }

  // ----- migration -----

  lemma {:induction false} CanonicalizeUnique(f: Fields, m: Material, g: Fields)
    requires UniqueKeysFields(f) && Canonicalize(f, m) == Ok(g)
    ensures UniqueKeysFields(g)
  {
    SourceUnique(m.id);
    RemoveUnique(f, m.legacyKey);
    SetUnique(f, m.key, ManagedSource(m.id));
    SetUnique(Remove(f, m.legacyKey), m.key, ManagedSource(m.id));
  }

  lemma {:induction false} MaterialsUnique(n: Node, r: Node)
    requires UniqueKeys(n) && Materials(n) == Ok(r)
    ensures UniqueKeys(r)
    decreases Weight(n)
  {
    match n {
      case Arr(items) => MaterialsInUnique(items, r.items);
      case Tables(items) => MaterialsInUnique(items, r.items);
      case Inline(f) => MaterialsOfUnique(f, r.fields);
      case Table(f) => MaterialsOfUnique(f, r.fields);
      case _ =>
    }
  }

  lemma {:induction false} MaterialsInUnique(items: Nodes, r: Nodes)
    requires UniqueKeysIn(items) && MaterialsIn(items) == Ok(r)
    ensures UniqueKeysIn(r)
    decreases WeightIn(items)
  {
    if items.Cons? {
      MaterialsUnique(items.head, r.head);
      MaterialsInUnique(items.tail, r.tail);
    }
  }

  lemma {:induction false} MaterialsOfUnique(f: Fields, r: Fields)
    requires UniqueKeysFields(f) && MaterialsOf(f) == Ok(r)
    ensures UniqueKeysFields(r)
    decreases WeightFields(f), 1
  {
    var a := Canonicalize(f, Migrate.Credential).value;
    var b := Canonicalize(a, Certificate).value;
    var c := Canonicalize(b, Transport).value;
    CanonicalizeUnique(f, Migrate.Credential, a);
    CanonicalizeUnique(a, Certificate, b);
    CanonicalizeUnique(b, Transport, c);
    CanonicalizeAllWeight(f, c);
    MaterialsFieldsUnique(c, r);
  }

  lemma {:induction false} MaterialsFieldsUnique(f: Fields, r: Fields)
    requires UniqueKeysFields(f) && MaterialsFields(f) == Ok(r)
    ensures UniqueKeysFields(r)
    decreases WeightFields(f), 0
  {
    if f.Field? {
      MaterialsUnique(f.value, r.value);
      MaterialsFieldsUnique(f.rest, r.rest);
      FieldsMapped(f.rest, r.rest, f.key);
    }
  }

  lemma {:induction false} RuleUnique(f: Fields, g: Fields)
    requires UniqueKeysFields(f) && Rule(f) == Ok(g)
    ensures UniqueKeysFields(g)
  {
    if Has(f, Action) {
      RemoveUnique(f, Action);
      SetUnique(Remove(f, Action), Decision, Get(g, Decision).value);
    }
  }

  lemma {:induction false} RulesUnique(items: Nodes, r: Nodes)
    requires UniqueKeysIn(items) && RulesIn(items) == Ok(r)
    ensures UniqueKeysIn(r)
  {
    if items.Cons? {
      if items.head.Table? {
        RuleUnique(items.head.fields, r.head.fields);
      }
      RulesUnique(items.tail, r.tail);
    }
  }

  lemma {:induction false} RoutingUnique(doc: Fields, r: Fields)
    requires UniqueKeysFields(doc) && RoutingActions(doc) == Ok(r)
    ensures UniqueKeysFields(r)
  {
    if HasRules(doc) {
      var routing := Get(doc, Routing).value.fields;
      ValueUnique(doc, Routing);
      ValueUnique(routing, Rules);
      var rules := RulesIn(RulesOf(doc)).value;
      RulesUnique(RulesOf(doc), rules);
      SetUnique(routing, Rules, Tables(rules));
      SetUnique(doc, Routing, Table(Set(routing, Rules, Tables(rules))));
    }
  }

  lemma {:induction false} MarkUnique(outbound: Node)
    requires (outbound.Inline? || outbound.Table?) && Has(outbound.fields, Security) && UniqueKeys(outbound)
    ensures UniqueKeys(Mark(outbound))
  {
    var security := Get(outbound.fields, Security).value;
    ValueUnique(outbound.fields, Security);
    if security.Inline? || security.Table? {
      SourceUnique(TransportMaterial);
      SetUnique(security.fields, TransportSecret, ManagedSource(TransportMaterial));
    }
    SetUnique(outbound.fields, Security, MarkSecurity(security));
  }

  lemma {:induction false} MarkOwnersUnique(items: Nodes, inlineOnly: bool)
    requires UniqueKeysIn(items)
    ensures UniqueKeysIn(MarkOwners(items, inlineOnly))
  {
    if items.Cons? {
      if Owner(items.head, inlineOnly) {
        MarkUnique(items.head);
      }
      MarkOwnersUnique(items.tail, inlineOnly);
    }
  }

  lemma {:induction false} EditorUnique(doc: Fields, r: Fields)
    requires UniqueKeysFields(doc) && Editor(doc) == Ok(r)
    ensures UniqueKeysFields(r)
  {
    var routed := RoutingActions(doc).value;
    var migrated := MaterialsOf(routed).value;
    RoutingUnique(doc, routed);
    MaterialsOfUnique(routed, migrated);
    if ManagedCountFields(migrated, TransportMaterial) == 0 {
      var outbounds := Get(migrated, Outbounds).value;
      ValueUnique(migrated, Outbounds);
      MarkOwnersUnique(outbounds.items, outbounds.Arr?);
      SetUnique(migrated, Outbounds, Get(r, Outbounds).value);
    }
  }

  // ----- patching -----

  lemma {:induction false} ItemUnique(items: Nodes, i: nat)
    requires UniqueKeysIn(items) && i < |ToSeq(items)|
    ensures UniqueKeys(ToSeq(items)[i])
  {
    if i > 0 {
      ItemUnique(items.tail, i - 1);
    }
  }

  lemma {:induction false} FromSeqUnique(s: seq<Node>)
    requires forall i | 0 <= i < |s| :: UniqueKeys(s[i])
    ensures UniqueKeysIn(FromSeq(s))
  {
    if s != [] {
      FromSeqUnique(s[1..]);
    }
  }

  lemma {:induction false} PathsUnique(existing: Nodes, projected: seq<EditorPath>)
    requires UniqueKeysIn(existing)
    ensures UniqueKeysIn(FromSeq(PatchedPaths(ToSeq(existing), projected)))
  {
    var entries := ToSeq(existing);
    var r := PatchedPaths(entries, projected);
    forall i | 0 <= i < |r| ensures UniqueKeys(r[i]) {
      var from := AssignedTo(entries, Reservations(entries, projected), i);
      var base := Base(entries, from);
      if from.Some? && from.value < |entries| {
        ItemUnique(existing, from.value);
      }
      SetUnique(base, Name, Str(projected[i].name));
      SetUnique(Set(base, Name, Str(projected[i].name)), Endpoint, Str(projected[i].endpoint));
    }
    FromSeqUnique(r);
  }

  lemma {:induction false} WithManagedUnique(f: Fields, k: Key, legacy: Key, id: Text)
    requires UniqueKeysFields(f)
    ensures UniqueKeysFields(WithManaged(f, k, legacy, id))
  {
    RemoveUnique(f, legacy);
    SourceUnique(id);
    SetUnique(Remove(f, legacy), k, ManagedSource(id));
  }

  lemma {:induction false} CredentialUnique(f: Fields, p: EditorProjection)
    requires UniqueKeysFields(f)
    ensures UniqueKeysFields(PatchedCredential(f, p))
  {
    var g := Set(f, CredentialId, Str(p.credentialId));
    SetUnique(f, CredentialId, Str(p.credentialId));
    SetUnique(g, PrincipalId, Str(p.principalId));
    WithManagedUnique(Set(g, PrincipalId, Str(p.principalId)), Secret, SecretFile, CredentialMaterial);
  }

  lemma {:induction false} SecurityUnique(f: Fields, p: EditorProjection)
    requires UniqueKeysFields(f)
    ensures UniqueKeysFields(PatchedSecurity(f, p))
  {
    var g := Set(f, CredentialId, Str(p.credentialId));
    var h := Set(g, TlsServerName, Str(p.serverName));
    SetUnique(f, CredentialId, Str(p.credentialId));
    SetUnique(g, TlsServerName, Str(p.serverName));
    WithManagedUnique(h, PinnedCertificate, PinnedCertificateFile, CertificateMaterial);
    WithManagedUnique(WithManaged(h, PinnedCertificate, PinnedCertificateFile, CertificateMaterial), TransportSecret, TransportSecretFile, TransportMaterial);
  }

  lemma {:induction false} ChildUnique(f: Fields, k: Key)
    requires UniqueKeysFields(f)
    ensures ChildOf(f, k).Some? ==> UniqueKeysFields(ChildOf(f, k).value)
    ensures EnsuredChild(f, k).Ok? ==> UniqueKeysFields(EnsuredChild(f, k).value)
  {
    if Has(f, k) {
      ValueUnique(f, k);
    }
  }

  lemma {:induction false} WithoutInUnique(f: Fields, child: Key, k: Key)
    requires UniqueKeysFields(f)
    ensures UniqueKeysFields(WithoutIn(f, child, k))
  {
    ChildUnique(f, child);
    if ChildOf(f, child).Some? {
      RemoveUnique(ChildOf(f, child).value, k);
      SetUnique(f, child, Table(Remove(ChildOf(f, child).value, k)));
    }
  }

  /** A child table with one more or another field. */
  lemma {:induction false} WithInUnique(f: Fields, child: Key, k: Key, v: Node)
    requires UniqueKeysFields(f) && EnsuredChild(f, child).Ok? && UniqueKeys(v)
    ensures UniqueKeysFields(WithChild(f, child, Set(EnsuredChild(f, child).value, k, v)))
  {
    ChildUnique(f, child);
    SetUnique(EnsuredChild(f, child).value, k, v);
    SetUnique(f, child, Table(Set(EnsuredChild(f, child).value, k, v)));
  }

  lemma {:induction false} AdvancedOutboundUnique(f: Fields, advanced: Option<Advanced>, r: Fields)
    requires UniqueKeysFields(f) && AdvancedOutbound(f, advanced) == Ok(r)
    ensures UniqueKeysFields(r)
  {
    match advanced {
      case None =>
        RemoveUnique(f, ProbeInterval);
        RemoveUnique(Remove(f, ProbeInterval), ProbeTimeout);
        var g := Remove(Remove(f, ProbeInterval), ProbeTimeout);
        WithoutInUnique(g, Performance, ReinjectionBudget);
        WithoutInUnique(WithoutIn(g, Performance, ReinjectionBudget), Security, AuthFreshness);
      case Some(a) =>
        SetUnique(f, ProbeInterval, NumberNode(a.probeInterval));
        SetUnique(Set(f, ProbeInterval, NumberNode(a.probeInterval)), ProbeTimeout, NumberNode(a.probeTimeout));
        var g := Set(Set(f, ProbeInterval, NumberNode(a.probeInterval)), ProbeTimeout, NumberNode(a.probeTimeout));
        WithInUnique(g, Performance, ReinjectionBudget, Int(a.reinjectionBudget));
        var h := WithChild(g, Performance, Set(EnsuredChild(g, Performance).value, ReinjectionBudget, Int(a.reinjectionBudget)));
        WithInUnique(h, Security, AuthFreshness, NumberNode(a.authFreshness));
    }
  }

  lemma {:induction false} OutboundUnique(outbound: Fields, security: Fields, p: EditorProjection, r: Fields)
    requires UniqueKeysFields(outbound) && UniqueKeysFields(security) && PatchedOutbound(outbound, security, p) == Ok(r)
    ensures UniqueKeysFields(r)
  {
    var items := Get(outbound, Paths).value.items;
    ValueUnique(outbound, Paths);
    PathsUnique(items, p.paths);
    var paths := Arr(FromSeq(PatchedPaths(ToSeq(items), p.paths)));
    SetUnique(outbound, Paths, paths);
    SecurityUnique(security, p);
    SetUnique(Set(outbound, Paths, paths), Security, Table(PatchedSecurity(security, p)));
    AdvancedOutboundUnique(WithChild(Set(outbound, Paths, paths), Security, PatchedSecurity(security, p)), p.advanced, r);
  }

  lemma {:induction false} ResourcesUnique(f: Fields, a: Advanced)
    requires UniqueKeysFields(f)
    ensures UniqueKeysFields(PatchedResources(f, a)) && UniqueKeysFields(StrippedResources(f))
  {
    var g := Set(f, TcpHeartbeatInterval, NumberNode(a.tcpInterval));
    var h := Set(g, TcpHeartbeatTimeout, NumberNode(a.tcpTimeout));
    SetUnique(f, TcpHeartbeatInterval, NumberNode(a.tcpInterval));
    SetUnique(g, TcpHeartbeatTimeout, NumberNode(a.tcpTimeout));
    SetUnique(h, QuicKeepAlive, NumberNode(a.quicKeepAlive));
    SetUnique(Set(h, QuicKeepAlive, NumberNode(a.quicKeepAlive)), QuicIdleTimeout, NumberNode(a.quicIdle));
    RemoveUnique(f, TcpHeartbeatInterval);
    RemoveUnique(Remove(f, TcpHeartbeatInterval), TcpHeartbeatTimeout);
    RemoveUnique(Remove(Remove(f, TcpHeartbeatInterval), TcpHeartbeatTimeout), QuicKeepAlive);
    RemoveUnique(Remove(Remove(Remove(f, TcpHeartbeatInterval), TcpHeartbeatTimeout), QuicKeepAlive), QuicIdleTimeout);
  }

  lemma {:induction false} AdvancedDocumentUnique(doc: Fields, advanced: Option<Advanced>, r: Fields)
    requires UniqueKeysFields(doc) && AdvancedDocument(doc, advanced) == Ok(r)
    ensures UniqueKeysFields(r)
  {
    match advanced {
      case None =>
        var d := WithoutIn(doc, Session, RetentionTimeout);
        WithoutInUnique(doc, Session, RetentionTimeout);
        ChildUnique(d, Resources);
        if ChildOf(d, Resources).Some? {
          ResourcesUnique(ChildOf(d, Resources).value, Advanced(0.0, 0.0, 0, 0.0, 0.0, 0.0, 0.0, 0.0, 0.0));
          SetUnique(d, Resources, Table(StrippedResources(ChildOf(d, Resources).value)));
        }
      case Some(a) =>
        WithInUnique(doc, Session, RetentionTimeout, NumberNode(a.retention));
        var d := WithChild(doc, Session, Set(EnsuredChild(doc, Session).value, RetentionTimeout, NumberNode(a.retention)));
        ChildUnique(d, Resources);
        ResourcesUnique(EnsuredChild(d, Resources).value, a);
        SetUnique(d, Resources, Table(PatchedResources(EnsuredChild(d, Resources).value, a)));
    }
  }

  lemma {:induction false} RestUnique(doc: Fields, p: EditorProjection, r: Fields)
    requires UniqueKeysFields(doc) && PatchedRest(doc, p) == Ok(r)
    ensures UniqueKeysFields(r)
  {
    var d := AdvancedDocument(doc, p.advanced).value;
    AdvancedDocumentUnique(doc, p.advanced, d);
    var e := PatchedTarget(d, p.target).value;
    ChildUnique(d, Routing);
    match p.target {
      case None =>
      case Some(None) =>
        if Has(d, Routing) {
          RemoveUnique(ChildOf(d, Routing).value, TargetResolution);
          SetUnique(d, Routing, Table(Remove(ChildOf(d, Routing).value, TargetResolution)));
        }
      case Some(Some(mode)) => WithInUnique(d, Routing, TargetResolution, Str(mode));
    }
    WithInUnique(e, Logging, Level, Str(p.level));
  }

  lemma {:induction false} WithFirstUnique(items: Nodes, k: Key, t: Text, f: Fields)
    requires UniqueKeysIn(items) && UniqueKeysFields(f) && CountOf(items, k, t) > 0
    ensures UniqueKeysIn(WithFirst(items, k, t, f)) && UniqueKeysFields(First(items, k, t))
  {
    if !Matches(items.head, k, t) {
      WithFirstUnique(items.tail, k, t, f);
    }
  }

  lemma {:induction false} PatchUnique(doc: Fields, p: EditorProjection, r: Fields)
    requires UniqueKeysFields(doc) && Patch(doc, p) == Ok(r)
    ensures UniqueKeysFields(r)
  {
    var s := StartOf(doc);
    var credentials, outbounds := TablesOf(doc, Credentials).value, TablesOf(doc, Outbounds).value;
    ValueUnique(doc, Credentials);
    ValueUnique(doc, Outbounds);
    WithFirstUnique(credentials, CredentialId, s.id, End);
    WithFirstUnique(outbounds, Protocol, Mpp, End);
    ChildUnique(s.outbound, Security);
    var outbound, credential := PatchedOutbound(s.outbound, s.security, p).value, PatchedCredential(s.credential, p);
    CredentialUnique(s.credential, p);
    OutboundUnique(s.outbound, s.security, p, outbound);
    ReplacedUnique(doc, credentials, s.id, credential, outbounds, outbound);
    RestUnique(Replaced(doc, credentials, s.id, credential, outbounds, outbound), p, r);
  }

  lemma {:induction false} ReplacedUnique(doc: Fields, credentials: Nodes, id: Text, credential: Fields, outbounds: Nodes, outbound: Fields)
    requires UniqueKeysFields(doc) && UniqueKeysIn(credentials) && UniqueKeysIn(outbounds) && UniqueKeysFields(credential) && UniqueKeysFields(outbound)
    requires CountOf(credentials, CredentialId, id) > 0 && CountOf(outbounds, Protocol, Mpp) > 0
    ensures UniqueKeysFields(Replaced(doc, credentials, id, credential, outbounds, outbound))
  {
    WithFirstUnique(credentials, CredentialId, id, credential);
    WithFirstUnique(outbounds, Protocol, Mpp, outbound);
    SetUnique(doc, Credentials, Tables(WithFirst(credentials, CredentialId, id, credential)));
    SetUnique(Set(doc, Credentials, Tables(WithFirst(credentials, CredentialId, id, credential))), Outbounds, Tables(WithFirst(outbounds, Protocol, Mpp, outbound)));
  }

  /** What the editor saves repeats no key that the document it was given did not repeat. */
  lemma {:induction false} SavedDocumentUnique(doc: Fields, p: EditorProjection, r: Fields)
    requires UniqueKeysFields(doc) && PatchEditor(doc, p) == Ok(r)
    ensures UniqueKeysFields(r)
  {
    var migrated := Editor(doc).value;
    EditorUnique(doc, migrated);
    PatchUnique(migrated, p, r);
  }
}
