/** Projecting a patched document gives the projection back, and nothing else of the document moves. */
module RoundTrip {
  import opened Outcomes
  import opened Toml
  import opened PatchPaths
  import opened Projection
  import MigrateEditor

  // ----- paths -----

  lemma {:induction false} ProjectAll(s: seq<Node>, paths: seq<EditorPath>)
    requires |s| == |paths| && forall i | 0 <= i < |s| :: ProjectPath(s[i]) == Ok(paths[i])
    ensures ProjectPaths(s) == Ok(paths)
  {
    if s != [] {
      ProjectAll(s[1..], paths[1..]);
      assert paths == [paths[0]] + paths[1..];
    }
  }

  lemma {:induction false} PathsRoundTrip(existing: seq<Node>, paths: seq<EditorPath>)
    ensures ProjectPaths(PatchedPaths(existing, paths)) == Ok(paths)
  {
    var s := PatchedPaths(existing, paths);
    forall i | 0 <= i < |s| ensures ProjectPath(s[i]) == Ok(paths[i]) {
      PatchedKeeps(existing, paths, i, Name);
    }
    ProjectAll(s, paths);
  }

  // ----- what the patched parts hold -----

  predicate SecurityHolds(security: Fields, p: EditorProjection) {
    && TextOf(Get(security, CredentialId)) == Some(p.credentialId)
    && TextOf(Get(security, TlsServerName)) == Some(p.serverName)
    && (match p.advanced case Some(a) => Get(security, AuthFreshness) == Some(NumberNode(a.authFreshness)) case None => !Has(security, AuthFreshness))
  }

  predicate OutboundHolds(outbound: Fields, p: EditorProjection) {
    && ChildOf(outbound, Security).Some? && SecurityHolds(ChildOf(outbound, Security).value, p)
    && match p.advanced
       case Some(a) =>
         && Get(outbound, ProbeInterval) == Some(NumberNode(a.probeInterval)) && Get(outbound, ProbeTimeout) == Some(NumberNode(a.probeTimeout))
         && ChildOf(outbound, Performance).Some? && Get(ChildOf(outbound, Performance).value, ReinjectionBudget) == Some(Int(a.reinjectionBudget))
       case None => !Has(outbound, ProbeInterval) && !Has(outbound, ProbeTimeout) && !HasIn(ChildOf(outbound, Performance), ReinjectionBudget)
  }

  lemma {:induction false} PatchedSecurityHolds(f: Fields, p: EditorProjection)
    ensures TextOf(Get(PatchedSecurity(f, p), CredentialId)) == Some(p.credentialId)
    ensures TextOf(Get(PatchedSecurity(f, p), TlsServerName)) == Some(p.serverName)
  {
    var g := Set(Set(f, CredentialId, Str(p.credentialId)), TlsServerName, Str(p.serverName));
    var h := WithManaged(g, PinnedCertificate, PinnedCertificateFile, CertificateMaterial);
    assert Get(h, CredentialId) == Get(g, CredentialId) && Get(h, TlsServerName) == Get(g, TlsServerName);
  }

  lemma {:induction false} AdvancedRemoved(f: Fields, security: Fields, r: Fields)
    requires ChildOf(f, Security) == Some(security) && AdvancedOutbound(f, None) == Ok(r)
    ensures !Has(r, ProbeInterval) && !Has(r, ProbeTimeout) && !HasIn(ChildOf(r, Performance), ReinjectionBudget)
    ensures ChildOf(r, Security) == Some(Remove(security, AuthFreshness))
    ensures Get(r, Protocol) == Get(f, Protocol) && Get(r, Paths) == Get(f, Paths)
  {
    var g := Remove(Remove(f, ProbeInterval), ProbeTimeout);
    var h := WithoutIn(g, Performance, ReinjectionBudget);
    assert !Has(g, ProbeInterval) && !Has(g, ProbeTimeout) && Get(g, Security) == Get(f, Security);
    assert ChildOf(h, Security) == Some(security) && !HasIn(ChildOf(h, Performance), ReinjectionBudget);
    assert Get(r, Performance) == Get(h, Performance);
  }

  lemma {:induction false} AdvancedSet(f: Fields, security: Fields, a: Advanced, r: Fields)
    requires ChildOf(f, Security) == Some(security) && AdvancedOutbound(f, Some(a)) == Ok(r)
    ensures Get(r, ProbeInterval) == Some(NumberNode(a.probeInterval)) && Get(r, ProbeTimeout) == Some(NumberNode(a.probeTimeout))
    ensures ChildOf(r, Performance).Some? && Get(ChildOf(r, Performance).value, ReinjectionBudget) == Some(Int(a.reinjectionBudget))
    ensures ChildOf(r, Security) == Some(Set(security, AuthFreshness, NumberNode(a.authFreshness)))
    ensures Get(r, Protocol) == Get(f, Protocol) && Get(r, Paths) == Get(f, Paths)
  {
    var g := Set(Set(f, ProbeInterval, NumberNode(a.probeInterval)), ProbeTimeout, NumberNode(a.probeTimeout));
    assert Get(g, Security) == Get(f, Security);
    var h := WithChild(g, Performance, Set(EnsuredChild(g, Performance).value, ReinjectionBudget, Int(a.reinjectionBudget)));
    assert EnsuredChild(h, Security) == Ok(security);
    assert Get(r, Performance) == Get(h, Performance);
  }

  lemma {:induction false} AdvancedOutboundHolds(f: Fields, security: Fields, p: EditorProjection, r: Fields)
    requires ChildOf(f, Security) == Some(security) && AdvancedOutbound(f, p.advanced) == Ok(r)
    requires TextOf(Get(security, CredentialId)) == Some(p.credentialId) && TextOf(Get(security, TlsServerName)) == Some(p.serverName)
    ensures OutboundHolds(r, p)
    ensures Get(r, Protocol) == Get(f, Protocol) && Get(r, Paths) == Get(f, Paths)
  {
    match p.advanced {
      case None => AdvancedRemoved(f, security, r);
      case Some(a) => AdvancedSet(f, security, a, r);
    }
  }

  lemma {:induction false} PatchedOutboundHolds(outbound: Fields, security: Fields, p: EditorProjection, r: Fields)
    requires PatchedOutbound(outbound, security, p) == Ok(r)
    ensures OutboundHolds(r, p) && Get(r, Protocol) == Get(outbound, Protocol)
    ensures PathsOf(r).Ok? && ProjectPaths(PathsOf(r).value) == Ok(p.paths)
  {
    var existing := PathsOf(outbound).value;
    var paths := PatchedPaths(existing, p.paths);
    var f := Set(outbound, Paths, Arr(FromSeq(paths)));
    var g := WithChild(f, Security, PatchedSecurity(security, p));
    PatchedSecurityHolds(security, p);
    AdvancedOutboundHolds(g, PatchedSecurity(security, p), p, r);
    FromToSeq(paths);
    PathsRoundTrip(existing, p.paths);
  }

  lemma {:induction false} PatchedCredentialHolds(f: Fields, p: EditorProjection)
    ensures TextOf(Get(PatchedCredential(f, p), CredentialId)) == Some(p.credentialId)
    ensures TextOf(Get(PatchedCredential(f, p), PrincipalId)) == Some(p.principalId)
  {
    var g := Set(Set(f, CredentialId, Str(p.credentialId)), PrincipalId, Str(p.principalId));
    assert Get(PatchedCredential(f, p), CredentialId) == Get(g, CredentialId);
    assert Get(PatchedCredential(f, p), PrincipalId) == Get(g, PrincipalId);
  }

  // ----- the rest of the document -----

  predicate AdvancedHolds(doc: Fields, advanced: Option<Advanced>) {
    match advanced
    case Some(a) =>
      && ChildOf(doc, Session).Some? && Get(ChildOf(doc, Session).value, RetentionTimeout) == Some(NumberNode(a.retention))
      && ChildOf(doc, Resources).Some? && ResourcesHold(ChildOf(doc, Resources).value, a)
    case None =>
      && !HasIn(ChildOf(doc, Session), RetentionTimeout)
      && !HasIn(ChildOf(doc, Resources), TcpHeartbeatInterval) && !HasIn(ChildOf(doc, Resources), TcpHeartbeatTimeout)
      && !HasIn(ChildOf(doc, Resources), QuicKeepAlive) && !HasIn(ChildOf(doc, Resources), QuicIdleTimeout)
  }

  predicate ResourcesHold(f: Fields, a: Advanced) {
    && Get(f, TcpHeartbeatInterval) == Some(NumberNode(a.tcpInterval)) && Get(f, TcpHeartbeatTimeout) == Some(NumberNode(a.tcpTimeout))
    && Get(f, QuicKeepAlive) == Some(NumberNode(a.quicKeepAlive)) && Get(f, QuicIdleTimeout) == Some(NumberNode(a.quicIdle))
  }

  lemma {:induction false} PatchedResourcesHold(f: Fields, a: Advanced)
    ensures ResourcesHold(PatchedResources(f, a), a)
  {
    var g := Set(Set(f, TcpHeartbeatInterval, NumberNode(a.tcpInterval)), TcpHeartbeatTimeout, NumberNode(a.tcpTimeout));
    var h := Set(g, QuicKeepAlive, NumberNode(a.quicKeepAlive));
    assert Get(h, TcpHeartbeatInterval) == Get(g, TcpHeartbeatInterval) && Get(h, TcpHeartbeatTimeout) == Get(g, TcpHeartbeatTimeout);
  }

  lemma {:induction false} StrippedResourcesHold(f: Fields, k: Key)
    requires k == TcpHeartbeatInterval || k == TcpHeartbeatTimeout || k == QuicKeepAlive || k == QuicIdleTimeout
    ensures !Has(StrippedResources(f), k)
  {
    var g := Remove(Remove(f, TcpHeartbeatInterval), TcpHeartbeatTimeout);
    var h := Remove(g, QuicKeepAlive);
    assert !Has(g, TcpHeartbeatInterval) && !Has(g, TcpHeartbeatTimeout);
    assert k != QuicIdleTimeout ==> !Has(h, k);
  }

  lemma {:induction false} AdvancedDocumentHolds(doc: Fields, advanced: Option<Advanced>, r: Fields)
    requires AdvancedDocument(doc, advanced) == Ok(r)
    ensures AdvancedHolds(r, advanced)
    ensures forall k | k != Session && k != Resources :: Get(r, k) == Get(doc, k)
  {
    match advanced {
      case None =>
        var d := WithoutIn(doc, Session, RetentionTimeout);
        if ChildOf(d, Resources).Some? {
          var f := ChildOf(d, Resources).value;
          StrippedResourcesHold(f, TcpHeartbeatInterval);
          StrippedResourcesHold(f, TcpHeartbeatTimeout);
          StrippedResourcesHold(f, QuicKeepAlive);
          StrippedResourcesHold(f, QuicIdleTimeout);
        }
      case Some(a) =>
        var d := WithChild(doc, Session, Set(EnsuredChild(doc, Session).value, RetentionTimeout, NumberNode(a.retention)));
        PatchedResourcesHold(EnsuredChild(d, Resources).value, a);
    }
  }

  /** The keys of the document that the patch may touch. */
  predicate EditedKey(k: Key) {
    k == Credentials || k == Outbounds || k == Session || k == Resources || k == Routing || k == Logging
  }

  lemma {:induction false} PatchedTargetHolds(doc: Fields, target: Option<Option<Text>>, r: Fields)
    requires PatchedTarget(doc, target) == Ok(r) && (target.Some? && target.value.Some? ==> ValidMode(target.value.value))
    ensures target.Some? ==> ProjectTarget(r) == Ok(target.value)
    ensures forall k | k != Routing :: Get(r, k) == Get(doc, k)
  {
  }

  lemma {:induction false} PatchedLevelHolds(doc: Fields, level: Text, r: Fields)
    requires PatchedLevel(doc, level) == Ok(r) && ValidLevel(level)
    ensures ProjectLevel(r) == Ok(level)
    ensures forall k | k != Logging :: Get(r, k) == Get(doc, k)
  {
  }

  lemma {:induction false} PatchedRestHolds(doc: Fields, p: EditorProjection, r: Fields)
    requires PatchedRest(doc, p) == Ok(r) && ValidProjection(p)
    ensures ProjectLevel(r) == Ok(p.level)
    ensures p.target.Some? ==> ProjectTarget(r) == Ok(p.target.value)
    ensures AdvancedHolds(r, p.advanced)
    ensures forall k | k != Session && k != Resources && k != Routing && k != Logging :: Get(r, k) == Get(doc, k)
  {
    var d := AdvancedDocument(doc, p.advanced).value;
    AdvancedDocumentHolds(doc, p.advanced, d);
    var e := PatchedTarget(d, p.target).value;
    PatchedTargetHolds(d, p.target, e);
    PatchedLevelHolds(e, p.level, r);
    assert Get(r, Routing) == Get(e, Routing);
    assert Get(r, Session) == Get(d, Session) && Get(r, Resources) == Get(d, Resources);
  }

  // ----- reading the numbers back -----

  lemma {:induction false} NumberRoundTrip(f: Fields, k: Key, x: real, default: real)
    requires Get(f, k) == Some(NumberNode(x))
    ensures NumberOr(Some(f), k, default) == Ok(x)
  {
  }

  lemma {:induction false} AdvancedRoundTrip(doc: Fields, outbound: Fields, p: EditorProjection, defaults: Advanced)
    requires OutboundHolds(outbound, p) && AdvancedHolds(doc, p.advanced)
    ensures ProjectAdvanced(doc, outbound, ChildOf(outbound, Security).value, defaults) == Ok(p.advanced)
  {
    match p.advanced {
      case None =>
      case Some(a) =>
        var security, resources := ChildOf(outbound, Security).value, ChildOf(doc, Resources).value;
        NumberRoundTrip(outbound, ProbeInterval, a.probeInterval, defaults.probeInterval);
        NumberRoundTrip(outbound, ProbeTimeout, a.probeTimeout, defaults.probeTimeout);
        NumberRoundTrip(security, AuthFreshness, a.authFreshness, defaults.authFreshness);
        NumberRoundTrip(ChildOf(doc, Session).value, RetentionTimeout, a.retention, defaults.retention);
        NumberRoundTrip(resources, TcpHeartbeatInterval, a.tcpInterval, defaults.tcpInterval);
        NumberRoundTrip(resources, TcpHeartbeatTimeout, a.tcpTimeout, defaults.tcpTimeout);
        NumberRoundTrip(resources, QuicKeepAlive, a.quicKeepAlive, defaults.quicKeepAlive);
        NumberRoundTrip(resources, QuicIdleTimeout, a.quicIdle, defaults.quicIdle);
    }
  }

  // ----- the round trip -----

  lemma {:induction false} ReplacedHolds(doc: Fields, credentials: Nodes, id: Text, credential: Fields, outbounds: Nodes, outbound: Fields, newId: Text)
    requires CountOf(credentials, CredentialId, id) > 0 && CountOf(outbounds, Protocol, Mpp) == 1
    requires TextOf(Get(credential, CredentialId)) == Some(newId) && TextOf(Get(outbound, Protocol)) == Some(Mpp)
    ensures var d := Replaced(doc, credentials, id, credential, outbounds, outbound);
      && MppOutbound(d) == Ok(outbound)
      && Credential(d, newId) == (if CountOthers(credentials, CredentialId, id, newId) == 0 then Ok(credential) else Err(NoSingleCredential))
      && forall k | k != Credentials && k != Outbounds :: Get(d, k) == Get(doc, k)
  {
    WithFirstCounts(credentials, CredentialId, id, credential, newId);
    WithFirstCounts(outbounds, Protocol, Mpp, outbound, Mpp);
    SameOthers(outbounds, Protocol, Mpp);
  }

  /** The outbound, its security and the credential that a patch of `doc` starts from. */
  datatype Starting = Starting(outbound: Fields, security: Fields, id: Text, credential: Fields)

  function StartOf(doc: Fields): Starting
    requires MppOutbound(doc).Ok? && SecurityOf(MppOutbound(doc).value).Ok?
    requires RequiredText(SecurityOf(MppOutbound(doc).value).value, CredentialId).Ok?
    requires Credential(doc, RequiredText(SecurityOf(MppOutbound(doc).value).value, CredentialId).value).Ok?
  {
    var outbound := MppOutbound(doc).value;
    var security := SecurityOf(outbound).value;
    var id := RequiredText(security, CredentialId).value;
    Starting(outbound, security, id, Credential(doc, id).value)
  }

  /** No credential other than the patched one has the projected id. */
  predicate IdIsFree(doc: Fields, s: Starting, p: EditorProjection)
    requires TablesOf(doc, Credentials).Some? && CountOf(TablesOf(doc, Credentials).value, CredentialId, s.id) > 0
  {
    CountOthers(TablesOf(doc, Credentials).value, CredentialId, s.id, p.credentialId) == 0
  }

  lemma {:induction false} FirstMatches(items: Nodes, k: Key, t: Text)
    requires CountOf(items, k, t) > 0
    ensures TextOf(Get(First(items, k, t), k)) == Some(t)
  {
    if !Matches(items.head, k, t) {
      FirstMatches(items.tail, k, t);
    }
  }

  lemma {:induction false} ProjectHolds(doc: Fields, outbound: Fields, p: EditorProjection, defaults: Advanced, target: Option<Text>)
    requires OutboundHolds(outbound, p) && AdvancedHolds(doc, p.advanced)
    requires PathsOf(outbound).Ok? && ProjectPaths(PathsOf(outbound).value) == Ok(p.paths)
    requires Credential(doc, p.credentialId).Ok? ==> TextOf(Get(Credential(doc, p.credentialId).value, PrincipalId)) == Some(p.principalId)
    ensures ProjectOutbound(doc, p.level, target, outbound, ChildOf(outbound, Security).value, defaults) ==
      if Credential(doc, p.credentialId).Ok? then Ok(p.(target := Some(target))) else Err(Credential(doc, p.credentialId).error)
  {
    AdvancedRoundTrip(doc, outbound, p, defaults);
  }

  /** What the document holds after its credential, its outbound and the rest are patched. */
  lemma {:induction false} PatchedHolds(doc: Fields, credentials: Nodes, id: Text, credential: Fields, outbounds: Nodes, outbound: Fields, p: EditorProjection, r: Fields)
    requires CountOf(credentials, CredentialId, id) > 0 && CountOf(outbounds, Protocol, Mpp) == 1 && ValidProjection(p)
    requires TextOf(Get(credential, CredentialId)) == Some(p.credentialId) && TextOf(Get(outbound, Protocol)) == Some(Mpp)
    requires PatchedRest(Replaced(doc, credentials, id, credential, outbounds, outbound), p) == Ok(r)
    ensures MppOutbound(r) == Ok(outbound)
    ensures Credential(r, p.credentialId) == (if CountOthers(credentials, CredentialId, id, p.credentialId) == 0 then Ok(credential) else Err(NoSingleCredential))
    ensures ProjectLevel(r) == Ok(p.level) && (p.target.Some? ==> ProjectTarget(r) == Ok(p.target.value)) && AdvancedHolds(r, p.advanced)
    ensures forall k | !EditedKey(k) :: Get(r, k) == Get(doc, k)
  {
    var d := Replaced(doc, credentials, id, credential, outbounds, outbound);
    ReplacedHolds(doc, credentials, id, credential, outbounds, outbound, p.credentialId);
    PatchedRestHolds(d, p, r);
    assert Get(r, Outbounds) == Get(d, Outbounds) && Get(r, Credentials) == Get(d, Credentials);
  }

  lemma {:induction false} PatchHolds(doc: Fields, p: EditorProjection, r: Fields, s: Starting)
    requires Patch(doc, p) == Ok(r) && s == StartOf(doc)
    ensures PatchedOutbound(s.outbound, s.security, p).Ok? && MppOutbound(r) == PatchedOutbound(s.outbound, s.security, p)
    ensures TablesOf(doc, Credentials).Some? && CountOf(TablesOf(doc, Credentials).value, CredentialId, s.id) > 0
    ensures Credential(r, p.credentialId) == if IdIsFree(doc, s, p) then Ok(PatchedCredential(s.credential, p)) else Err(NoSingleCredential)
    ensures ProjectLevel(r) == Ok(p.level) && (p.target.Some? ==> ProjectTarget(r) == Ok(p.target.value)) && AdvancedHolds(r, p.advanced)
    ensures forall k | !EditedKey(k) :: Get(r, k) == Get(doc, k)
  {
    var outbound, credential := PatchedOutbound(s.outbound, s.security, p).value, PatchedCredential(s.credential, p);
    PatchedOutboundHolds(s.outbound, s.security, p, outbound);
    FirstMatches(TablesOf(doc, Outbounds).value, Protocol, Mpp);
    PatchedCredentialHolds(s.credential, p);
    PatchedHolds(doc, TablesOf(doc, Credentials).value, s.id, credential, TablesOf(doc, Outbounds).value, outbound, p, r);
  }

  /**
   Projecting the patched document returns the projection exactly when the projection says
   something about target resolution and no other credential already has the projected id.
   */
  lemma {:induction false} ProjectAfterPatch(doc: Fields, p: EditorProjection, r: Fields, s: Starting, defaults: Advanced)
    requires Patch(doc, p) == Ok(r) && s == StartOf(doc)
    ensures TablesOf(doc, Credentials).Some? && CountOf(TablesOf(doc, Credentials).value, CredentialId, s.id) > 0
    ensures Project(r, defaults) == Ok(p) <==> p.target.Some? && IdIsFree(doc, s, p)
  {
    PatchHolds(doc, p, r, s);
    var outbound := PatchedOutbound(s.outbound, s.security, p).value;
    PatchedOutboundHolds(s.outbound, s.security, p, outbound);
    PatchedCredentialHolds(s.credential, p);
    if ProjectTarget(r).Ok? {
      ProjectHolds(r, outbound, p, defaults, ProjectTarget(r).value);
    }
  }

  // ----- two documents that do not come back -----

  const SampleOutbound := Field(Protocol, Str(Mpp), Field(Security, Table(Field(CredentialId, Str(100), End)), Field(Paths, Arr(Nil), End)))

  /** A document with one outbound, its credential, and another credential under a given id. */
  function Sample(other: Text): Fields {
    Field(Outbounds, Tables(Cons(Table(SampleOutbound), Nil)),
      Field(Credentials, Tables(Cons(Table(Field(CredentialId, Str(100), End)), Cons(Table(Field(CredentialId, Str(other), End)), Nil))), End))
  }

  lemma {:induction false} SampleStart(other: Text)
    requires other != 100
    ensures MppOutbound(Sample(other)) == Ok(SampleOutbound) && Credential(Sample(other), 100) == Ok(Field(CredentialId, Str(100), End))
  {
    var doc := Sample(other);
    assert Get(doc, Credentials) == Get(doc.rest, Credentials) == Some(doc.rest.value);
    var items := TablesOf(doc, Credentials).value;
    assert Matches(items.head, CredentialId, 100) && !Matches(items.tail.head, CredentialId, 100);
    assert CountOf(items.tail, CredentialId, 100) == 0;
    var outbounds := TablesOf(doc, Outbounds).value;
    assert Matches(outbounds.head, Protocol, Mpp);
  }

  lemma {:induction false} SamplePatches(other: Text, p: EditorProjection)
    requires other != 100 && ValidProjection(p) && p.advanced.None?
    ensures Patch(Sample(other), p).Ok?
  {
    SampleStart(other);
    var doc := Sample(other);
    assert Get(doc, Credentials) == Get(doc.rest, Credentials) == Some(doc.rest.value);
    var outbound := SampleOutbound;
    assert Get(outbound.rest, Security) == Some(outbound.rest.value) && Get(outbound.rest.rest, Paths) == Some(Arr(Nil));
    var f := PatchedOutbound(outbound, ChildOf(outbound, Security).value, p).value;
    var d := Replaced(doc, TablesOf(doc, Credentials).value, 100, PatchedCredential(Field(CredentialId, Str(100), End), p), TablesOf(doc, Outbounds).value, f);
    forall k | k != Outbounds && k != Credentials ensures Get(d, k) == None {
      SampleHasNothingElse(other, k);
    }
    BareRestPatches(d, p);
  }

  lemma {:induction false} SampleHasNothingElse(other: Text, k: Key)
    requires k != Outbounds && k != Credentials
    ensures Get(Sample(other), k) == None
  {
    assert Get(Sample(other), k) == Get(Sample(other).rest, k) == Get(End, k);
  }

  lemma {:induction false} BareRestPatches(d: Fields, p: EditorProjection)
    requires p.advanced.None? && forall k | k != Outbounds && k != Credentials :: Get(d, k) == None
    ensures PatchedRest(d, p).Ok?
  {
    assert AdvancedDocument(d, None) == Ok(d);
    var e := PatchedTarget(d, p.target).value;
    assert Get(e, Logging) == None;
  }

  /** A projection that says nothing about target resolution is not read back. */
  lemma {:induction false} SilentTargetIsLost(defaults: Advanced) returns (doc: Fields, p: EditorProjection)
    ensures Patch(doc, p).Ok? && Project(Patch(doc, p).value, defaults) != Ok(p)
  {
    doc, p := Sample(200), EditorProjection(Info, None, [], None, 100, 101, 102);
    SampleStart(200);
    SamplePatches(200, p);
    ProjectAfterPatch(doc, p, Patch(doc, p).value, StartOf(doc), defaults);
  }

  /** A credential renamed to an id already taken makes the saved document unreadable. */
  lemma {:induction false} TakenIdIsLost(defaults: Advanced) returns (doc: Fields, p: EditorProjection)
    ensures Patch(doc, p).Ok? && Project(Patch(doc, p).value, defaults) != Ok(p)
  {
    doc, p := Sample(200), EditorProjection(Info, Some(None), [], None, 200, 101, 102);
    SampleStart(200);
    SamplePatches(200, p);
    var items := TablesOf(doc, Credentials).value;
    assert Matches(items.head, CredentialId, 100) && Matches(items.tail.head, CredentialId, 200);
    ProjectAfterPatch(doc, p, Patch(doc, p).value, StartOf(doc), defaults);
  }

  // ----- what the patch leaves alone -----

  predicate EditedOutboundKey(k: Key) {
    k == Paths || k == Security || k == ProbeInterval || k == ProbeTimeout || k == Performance
  }

  predicate EditedSecurityKey(k: Key) {
    || k == CredentialId || k == TlsServerName || k == AuthFreshness
    || k == PinnedCertificate || k == PinnedCertificateFile || k == TransportSecret || k == TransportSecretFile
  }

  /** The fields of a child table, none when there is no such table. */
  function ChildFields(f: Fields, k: Key): Fields {
    if ChildOf(f, k).Some? then ChildOf(f, k).value else End
  }

  lemma {:induction false} AdvancedOutboundFrame(f: Fields, advanced: Option<Advanced>, r: Fields, k: Key)
    requires AdvancedOutbound(f, advanced) == Ok(r)
    ensures !EditedOutboundKey(k) ==> Get(r, k) == Get(f, k)
    ensures k != AuthFreshness ==> Get(ChildFields(r, Security), k) == Get(ChildFields(f, Security), k)
    ensures k != ReinjectionBudget ==> Get(ChildFields(r, Performance), k) == Get(ChildFields(f, Performance), k)
  {
    match advanced {
      case None =>
        var g := Remove(Remove(f, ProbeInterval), ProbeTimeout);
        var h := WithoutIn(g, Performance, ReinjectionBudget);
        assert Get(g, Security) == Get(f, Security) && Get(g, Performance) == Get(f, Performance);
        assert Get(h, Security) == Get(g, Security) && Get(r, Performance) == Get(h, Performance);
      case Some(a) =>
        var g := Set(Set(f, ProbeInterval, NumberNode(a.probeInterval)), ProbeTimeout, NumberNode(a.probeTimeout));
        assert Get(g, Security) == Get(f, Security) && Get(g, Performance) == Get(f, Performance);
        var h := WithChild(g, Performance, Set(EnsuredChild(g, Performance).value, ReinjectionBudget, Int(a.reinjectionBudget)));
        assert Get(h, Security) == Get(g, Security) && Get(r, Performance) == Get(h, Performance);
    }
  }

  lemma {:induction false} SecurityFrame(f: Fields, p: EditorProjection, k: Key)
    requires !EditedSecurityKey(k)
    ensures Get(PatchedSecurity(f, p), k) == Get(f, k)
  {
    var g := Set(Set(f, CredentialId, Str(p.credentialId)), TlsServerName, Str(p.serverName));
    assert Get(g, k) == Get(f, k);
    assert Get(WithManaged(g, PinnedCertificate, PinnedCertificateFile, CertificateMaterial), k) == Get(g, k);
  }

  lemma {:induction false} PreparedFrame(outbound: Fields, paths: Node, security: Fields, k: Key)
    ensures var g := WithChild(Set(outbound, Paths, paths), Security, security);
      && (!EditedOutboundKey(k) ==> Get(g, k) == Get(outbound, k))
      && ChildFields(g, Security) == security && ChildFields(g, Performance) == ChildFields(outbound, Performance)
  {
    var f := Set(outbound, Paths, paths);
    assert Get(f, Performance) == Get(outbound, Performance);
    assert Get(WithChild(f, Security, security), Performance) == Get(f, Performance);
  }

  /** In the outbound, only the edited keys move, and so in its security and performance tables. */
  lemma {:induction false} OutboundFrame(outbound: Fields, security: Fields, p: EditorProjection, r: Fields, k: Key)
    requires ChildOf(outbound, Security) == Some(security) && PatchedOutbound(outbound, security, p) == Ok(r)
    ensures !EditedOutboundKey(k) ==> Get(r, k) == Get(outbound, k)
    ensures !EditedSecurityKey(k) ==> Get(ChildFields(r, Security), k) == Get(security, k)
    ensures k != ReinjectionBudget ==> Get(ChildFields(r, Performance), k) == Get(ChildFields(outbound, Performance), k)
  {
    var paths := Arr(FromSeq(PatchedPaths(PathsOf(outbound).value, p.paths)));
    var patched := PatchedSecurity(security, p);
    PreparedFrame(outbound, paths, patched, k);
    AdvancedOutboundFrame(WithChild(Set(outbound, Paths, paths), Security, patched), p.advanced, r, k);
    if !EditedSecurityKey(k) {
      SecurityFrame(security, p, k);
    }
  }

  lemma {:induction false} CredentialFrame(f: Fields, p: EditorProjection, k: Key)
    requires !CredentialKey(k)
    ensures Get(PatchedCredential(f, p), k) == Get(f, k)
  {
    assert Get(Set(Set(f, CredentialId, Str(p.credentialId)), PrincipalId, Str(p.principalId)), k) == Get(f, k);
  }

  predicate EditedResourceKey(k: Key) {
    k == TcpHeartbeatInterval || k == TcpHeartbeatTimeout || k == QuicKeepAlive || k == QuicIdleTimeout
  }

  lemma {:induction false} AdvancedDocumentFrame(doc: Fields, advanced: Option<Advanced>, r: Fields, k: Key)
    requires AdvancedDocument(doc, advanced) == Ok(r)
    ensures k != RetentionTimeout ==> Get(ChildFields(r, Session), k) == Get(ChildFields(doc, Session), k)
    ensures !EditedResourceKey(k) ==> Get(ChildFields(r, Resources), k) == Get(ChildFields(doc, Resources), k)
  {
    match advanced {
      case None =>
        var d := WithoutIn(doc, Session, RetentionTimeout);
        var f := ChildFields(d, Resources);
        assert Get(d, Resources) == Get(doc, Resources) && Get(r, Session) == Get(d, Session);
        var g := Remove(Remove(f, TcpHeartbeatInterval), TcpHeartbeatTimeout);
        assert !EditedResourceKey(k) ==> Get(g, k) == Get(f, k) && Get(Remove(g, QuicKeepAlive), k) == Get(g, k);
      case Some(a) =>
        var d := WithChild(doc, Session, Set(EnsuredChild(doc, Session).value, RetentionTimeout, NumberNode(a.retention)));
        var f := EnsuredChild(d, Resources).value;
        assert Get(d, Resources) == Get(doc, Resources) && Get(r, Session) == Get(d, Session);
        var g := Set(Set(f, TcpHeartbeatInterval, NumberNode(a.tcpInterval)), TcpHeartbeatTimeout, NumberNode(a.tcpTimeout));
        assert !EditedResourceKey(k) ==> Get(g, k) == Get(f, k) && Get(Set(g, QuicKeepAlive, NumberNode(a.quicKeepAlive)), k) == Get(g, k);
    }
  }

  lemma {:induction false} TargetFrame(doc: Fields, target: Option<Option<Text>>, r: Fields, k: Key)
    requires PatchedTarget(doc, target) == Ok(r) && k != TargetResolution
    ensures Get(ChildFields(r, Routing), k) == Get(ChildFields(doc, Routing), k)
  {
  }

  lemma {:induction false} LevelFrame(doc: Fields, level: Text, r: Fields, k: Key)
    requires PatchedLevel(doc, level) == Ok(r) && k != Level
    ensures Get(ChildFields(r, Logging), k) == Get(ChildFields(doc, Logging), k)
  {
  }

  /** The same for the session, resources, routing and logging tables of the document. */
  lemma {:induction false} RestFrame(doc: Fields, p: EditorProjection, r: Fields, k: Key)
    requires PatchedRest(doc, p) == Ok(r) && ValidProjection(p)
    ensures k != RetentionTimeout ==> Get(ChildFields(r, Session), k) == Get(ChildFields(doc, Session), k)
    ensures !EditedResourceKey(k) ==> Get(ChildFields(r, Resources), k) == Get(ChildFields(doc, Resources), k)
    ensures k != TargetResolution ==> Get(ChildFields(r, Routing), k) == Get(ChildFields(doc, Routing), k)
    ensures k != Level ==> Get(ChildFields(r, Logging), k) == Get(ChildFields(doc, Logging), k)
  {
    var d := AdvancedDocument(doc, p.advanced).value;
    AdvancedDocumentHolds(doc, p.advanced, d);
    AdvancedDocumentFrame(doc, p.advanced, d, k);
    var e := PatchedTarget(d, p.target).value;
    PatchedTargetHolds(d, p.target, e);
    PatchedLevelHolds(e, p.level, r);
    if k != TargetResolution {
      TargetFrame(d, p.target, e, k);
    }
    if k != Level {
      LevelFrame(e, p.level, r, k);
    }
    SameChildren(doc, d, e, r);
  }

  lemma {:induction false} SameChildren(doc: Fields, d: Fields, e: Fields, r: Fields)
    requires forall k | k != Session && k != Resources :: Get(d, k) == Get(doc, k)
    requires forall k | k != Routing :: Get(e, k) == Get(d, k)
    requires forall k | k != Logging :: Get(r, k) == Get(e, k)
    ensures ChildFields(r, Session) == ChildFields(d, Session) && ChildFields(r, Resources) == ChildFields(d, Resources)
    ensures ChildFields(r, Routing) == ChildFields(e, Routing) && ChildFields(d, Routing) == ChildFields(doc, Routing)
    ensures ChildFields(e, Logging) == ChildFields(doc, Logging)
  {
  }

  /** Two arrays of tables that differ at one position, where one table took another's place. */
  predicate Exchanged(before: Nodes, after: Nodes, i: nat, was: Fields, became: Fields) {
    && |ToSeq(after)| == |ToSeq(before)| && i < |ToSeq(before)|
    && ToSeq(before)[i] == Table(was) && ToSeq(after)[i] == Table(became)
    && forall j | 0 <= j < |ToSeq(before)| && j != i :: ToSeq(after)[j] == ToSeq(before)[j]
  }

  lemma {:induction false} OnlyTheFirst(items: Nodes, k: Key, t: Text, f: Fields)
    requires CountOf(items, k, t) > 0
    ensures Exchanged(items, WithFirst(items, k, t, f), IndexOf(items, k, t), First(items, k, t), f)
  {
    WithFirstKeepsOthers(items, k, t, f);
  }

  lemma {:induction false} ReplacedTables(doc: Fields, credentials: Nodes, id: Text, credential: Fields, outbounds: Nodes, outbound: Fields, p: EditorProjection, r: Fields)
    requires CountOf(credentials, CredentialId, id) > 0 && CountOf(outbounds, Protocol, Mpp) > 0 && ValidProjection(p)
    requires PatchedRest(Replaced(doc, credentials, id, credential, outbounds, outbound), p) == Ok(r)
    ensures TablesOf(r, Credentials) == Some(WithFirst(credentials, CredentialId, id, credential))
    ensures TablesOf(r, Outbounds) == Some(WithFirst(outbounds, Protocol, Mpp, outbound))
  {
    var d := Replaced(doc, credentials, id, credential, outbounds, outbound);
    PatchedRestHolds(d, p, r);
    assert Get(r, Outbounds) == Get(d, Outbounds) && Get(r, Credentials) == Get(d, Credentials);
  }

  predicate CredentialKey(k: Key) {
    k == CredentialId || k == PrincipalId || k == Secret || k == SecretFile
  }

  /** Only the edited keys of an outbound differ, and so in its security and performance tables. */
  predicate OutboundFramed(before: Fields, after: Fields, k: Key) {
    && (!EditedOutboundKey(k) ==> Get(after, k) == Get(before, k))
    && (!EditedSecurityKey(k) ==> Get(ChildFields(after, Security), k) == Get(ChildFields(before, Security), k))
    && (k != ReinjectionBudget ==> Get(ChildFields(after, Performance), k) == Get(ChildFields(before, Performance), k))
  }

  predicate CredentialFramed(before: Fields, after: Fields, k: Key) {
    !CredentialKey(k) ==> Get(after, k) == Get(before, k)
  }

  /** Only the edited tables of a document differ, and in the plain ones only the edited keys. */
  predicate RestFramed(before: Fields, after: Fields, k: Key) {
    && (!EditedKey(k) ==> Get(after, k) == Get(before, k))
    && (k != RetentionTimeout ==> Get(ChildFields(after, Session), k) == Get(ChildFields(before, Session), k))
    && (!EditedResourceKey(k) ==> Get(ChildFields(after, Resources), k) == Get(ChildFields(before, Resources), k))
    && (k != TargetResolution ==> Get(ChildFields(after, Routing), k) == Get(ChildFields(before, Routing), k))
    && (k != Level ==> Get(ChildFields(after, Logging), k) == Get(ChildFields(before, Logging), k))
  }

  /**
   What a patch may touch: the outbound at `i` and the credential at `j`, and of these and of the
   other tables only the edited keys. Every other outbound and credential is the same, whole.
   */
  predicate Framed(before: Fields, after: Fields, s: Starting, outbound: Fields, credential: Fields, i: nat, j: nat, k: Key) {
    && TablesOf(before, Outbounds).Some? && TablesOf(after, Outbounds).Some?
    && TablesOf(before, Credentials).Some? && TablesOf(after, Credentials).Some?
    && Exchanged(TablesOf(before, Outbounds).value, TablesOf(after, Outbounds).value, i, s.outbound, outbound)
    && Exchanged(TablesOf(before, Credentials).value, TablesOf(after, Credentials).value, j, s.credential, credential)
    && OutboundFramed(s.outbound, outbound, k) && CredentialFramed(s.credential, credential, k) && RestFramed(before, after, k)
  }

  lemma {:induction false} ReplacedFrame(doc: Fields, credentials: Nodes, id: Text, credential: Fields, outbounds: Nodes, outbound: Fields)
    requires CountOf(credentials, CredentialId, id) > 0 && CountOf(outbounds, Protocol, Mpp) > 0
    ensures var d := Replaced(doc, credentials, id, credential, outbounds, outbound);
      && ChildFields(d, Session) == ChildFields(doc, Session) && ChildFields(d, Resources) == ChildFields(doc, Resources)
      && ChildFields(d, Routing) == ChildFields(doc, Routing) && ChildFields(d, Logging) == ChildFields(doc, Logging)
  {
    var c := Set(doc, Credentials, Tables(WithFirst(credentials, CredentialId, id, credential)));
    assert forall k | k == Session || k == Resources || k == Routing || k == Logging :: Get(c, k) == Get(doc, k);
  }

  lemma {:induction false} RestOfPatchFramed(doc: Fields, p: EditorProjection, r: Fields, s: Starting, k: Key)
    requires Patch(doc, p) == Ok(r) && s == StartOf(doc)
    ensures RestFramed(doc, r, k)
  {
    var credentials, outbounds := TablesOf(doc, Credentials).value, TablesOf(doc, Outbounds).value;
    var outbound, credential := PatchedOutbound(s.outbound, s.security, p).value, PatchedCredential(s.credential, p);
    PatchHolds(doc, p, r, s);
    ReplacedFrame(doc, credentials, s.id, credential, outbounds, outbound);
    RestFrame(Replaced(doc, credentials, s.id, credential, outbounds, outbound), p, r, k);
  }

  /** A patch changes one outbound and one credential, and of the whole document only the edited keys. */
  lemma {:induction false} PatchFramed(doc: Fields, p: EditorProjection, r: Fields, s: Starting, k: Key)
    requires Patch(doc, p) == Ok(r) && s == StartOf(doc)
    ensures TablesOf(doc, Outbounds).Some? && CountOf(TablesOf(doc, Outbounds).value, Protocol, Mpp) == 1
    ensures TablesOf(doc, Credentials).Some? && CountOf(TablesOf(doc, Credentials).value, CredentialId, s.id) == 1
    ensures PatchedOutbound(s.outbound, s.security, p).Ok?
    ensures Framed(doc, r, s, PatchedOutbound(s.outbound, s.security, p).value, PatchedCredential(s.credential, p),
                   IndexOf(TablesOf(doc, Outbounds).value, Protocol, Mpp), IndexOf(TablesOf(doc, Credentials).value, CredentialId, s.id), k)
  {
    var credentials, outbounds := TablesOf(doc, Credentials).value, TablesOf(doc, Outbounds).value;
    var outbound, credential := PatchedOutbound(s.outbound, s.security, p).value, PatchedCredential(s.credential, p);
    ReplacedTables(doc, credentials, s.id, credential, outbounds, outbound, p, r);
    OnlyTheFirst(credentials, CredentialId, s.id, credential);
    OnlyTheFirst(outbounds, Protocol, Mpp, outbound);
    OutboundFrame(s.outbound, s.security, p, outbound, k);
    if !CredentialKey(k) {
      CredentialFrame(s.credential, p, k);
    }
    RestOfPatchFramed(doc, p, r, s, k);
  }

  // ----- the whole editor -----

  datatype SaveError = MigrationFailed | EditFailed(error: EditError)

  /** `patch_editor`: migrate, then patch. */
  function PatchEditor(doc: Fields, p: EditorProjection): Result<Fields, SaveError> {
    match MigrateEditor.Editor(doc)
    case Err(_) => Err(MigrationFailed)
    case Ok(migrated) =>
      match Patch(migrated, p)
      case Err(e) => Err(EditFailed(e))
      case Ok(r) => Ok(r)
  }

  /**
   For every document the editor can save: the round trip, and the frame against the migrated
   document. At every key `k`, in the document and in each of its tables, only what the
   projection edits differs.
   */
  lemma {:induction false} SavedDocumentProjects(doc: Fields, p: EditorProjection, r: Fields, defaults: Advanced, k: Key)
    requires PatchEditor(doc, p) == Ok(r)
    ensures var migrated := MigrateEditor.Editor(doc).value;
      && Patch(migrated, p) == Ok(r)
      && TablesOf(migrated, Outbounds).Some? && CountOf(TablesOf(migrated, Outbounds).value, Protocol, Mpp) == 1
      && TablesOf(migrated, Credentials).Some? && CountOf(TablesOf(migrated, Credentials).value, CredentialId, StartOf(migrated).id) == 1
      && (Project(r, defaults) == Ok(p) <==> p.target.Some? && IdIsFree(migrated, StartOf(migrated), p))
      && PatchedOutbound(StartOf(migrated).outbound, StartOf(migrated).security, p).Ok?
      && Framed(migrated, r, StartOf(migrated), PatchedOutbound(StartOf(migrated).outbound, StartOf(migrated).security, p).value,
                PatchedCredential(StartOf(migrated).credential, p), IndexOf(TablesOf(migrated, Outbounds).value, Protocol, Mpp),
                IndexOf(TablesOf(migrated, Credentials).value, CredentialId, StartOf(migrated).id), k)
  {
    var migrated := MigrateEditor.Editor(doc).value;
    ProjectAfterPatch(migrated, p, r, StartOf(migrated), defaults);
    PatchFramed(migrated, p, r, StartOf(migrated), k);
  }
}
