/** The managed references a patch writes, and what finalising makes of them. */
module PatchMaterials {
  import opened Outcomes
  import opened Toml
  import opened Finalize
  import opened Projection
  import opened RoundTrip
  import opened UniqueKeysKept
  import PatchPaths
  import MigrateEditor

  // ----- what the patch writes -----

  /** A material stands under its key as the managed reference, and not under its legacy key. */
  predicate Manages(f: Fields, k: Key, legacy: Key, id: Text) {
    Get(f, k) == Some(ManagedSource(id)) && !Has(f, legacy)
  }

  predicate CredentialManages(f: Fields) {
    Manages(f, Secret, SecretFile, CredentialMaterial)
  }

  predicate SecurityManages(f: Fields) {
    Manages(f, PinnedCertificate, PinnedCertificateFile, CertificateMaterial) && Manages(f, TransportSecret, TransportSecretFile, TransportMaterial)
  }

  lemma {:induction false} PatchedSecurityManages(f: Fields, p: EditorProjection)
    ensures SecurityManages(PatchedSecurity(f, p))
  {
    var g := Set(Set(f, CredentialId, Str(p.credentialId)), TlsServerName, Str(p.serverName));
    var h := WithManaged(g, PinnedCertificate, PinnedCertificateFile, CertificateMaterial);
    assert Manages(h, PinnedCertificate, PinnedCertificateFile, CertificateMaterial);
    var r := Remove(h, TransportSecretFile);
    assert Get(r, PinnedCertificate) == Get(h, PinnedCertificate) && !Has(r, PinnedCertificateFile);
  }

  lemma {:induction false} PatchedOutboundManages(outbound: Fields, security: Fields, p: EditorProjection, r: Fields)
    requires PatchedOutbound(outbound, security, p) == Ok(r)
    ensures ChildOf(r, Security).Some? && SecurityManages(ChildOf(r, Security).value)
  {
    var patched := PatchedSecurity(security, p);
    var f := Set(outbound, Paths, Arr(FromSeq(PatchPaths.PatchedPaths(PathsOf(outbound).value, p.paths))));
    var g := WithChild(f, Security, patched);
    PatchedSecurityManages(security, p);
    match p.advanced {
      case None => AdvancedRemoved(g, patched, r);
      case Some(a) => AdvancedSet(g, patched, a, r);
    }
  }

  /** Every patched document: the credential and the outbound the patch is about hold the three references. */
  lemma {:induction false} PatchManages(doc: Fields, p: EditorProjection, r: Fields) returns (outbound: Fields, security: Fields, credential: Fields, i: nat, j: nat)
    requires Patch(doc, p) == Ok(r)
    ensures TablesOf(r, Outbounds).Some? && i < |ToSeq(TablesOf(r, Outbounds).value)| && ToSeq(TablesOf(r, Outbounds).value)[i] == Table(outbound)
    ensures TablesOf(r, Credentials).Some? && j < |ToSeq(TablesOf(r, Credentials).value)| && ToSeq(TablesOf(r, Credentials).value)[j] == Table(credential)
    ensures TextOf(Get(outbound, Protocol)) == Some(Mpp) && Get(outbound, Security) == Some(Table(security))
    ensures TextOf(Get(security, CredentialId)) == TextOf(Get(credential, CredentialId)) == Some(p.credentialId)
    ensures SecurityManages(security) && CredentialManages(credential)
  {
    var s := StartOf(doc);
    PatchFramed(doc, p, r, s, Name);
    outbound, credential := PatchedOutbound(s.outbound, s.security, p).value, PatchedCredential(s.credential, p);
    i, j := IndexOf(TablesOf(doc, Outbounds).value, Protocol, Mpp), IndexOf(TablesOf(doc, Credentials).value, CredentialId, s.id);
    PatchedOutboundManages(s.outbound, s.security, p, outbound);
    PatchedOutboundHolds(s.outbound, s.security, p, outbound);
    PatchedCredentialHolds(s.credential, p);
    FirstMatches(TablesOf(doc, Outbounds).value, Protocol, Mpp);
    security := ChildOf(outbound, Security).value;
  }

  // ----- taking a document apart -----

  function Without(items: Nodes, i: nat): Nodes {
    if items.Nil? then Nil else if i == 0 then items.tail else Cons(items.head, Without(items.tail, i - 1))
  }

  function Append(a: Nodes, b: Nodes): Nodes {
    match a
    case Nil => b
    case Cons(head, tail) => Cons(head, Append(tail, b))
  }

  lemma {:induction false} AppendParts(a: Nodes, b: Nodes, bindings: Bindings, id: Text)
    ensures ManagedCountIn(Append(a, b), id) == ManagedCountIn(a, id) + ManagedCountIn(b, id)
    ensures PlacedIn(Append(a, b), bindings) <==> PlacedIn(a, bindings) && PlacedIn(b, bindings)
  {
    if a.Cons? {
      AppendParts(a.tail, b, bindings, id);
    }
  }

  lemma {:induction false} WithoutParts(items: Nodes, i: nat, b: Bindings, id: Text)
    requires i < |ToSeq(items)|
    ensures ManagedCountIn(items, id) == ManagedCountIn(Without(items, i), id) + ManagedCount(ToSeq(items)[i], id)
    ensures PlacedIn(items, b) <==> PlacedIn(Without(items, i), b) && Placed(ToSeq(items)[i], b, false)
  {
    if i > 0 {
      WithoutParts(items.tail, i - 1, b, id);
    }
  }

  lemma {:induction false} RemoveAbsent(f: Fields, k: Key)
    requires !Has(f, k)
    ensures Remove(f, k) == f
  {
    if f.Field? {
      RemoveAbsent(f.rest, k);
    }
  }

  lemma {:induction false} RemoveParts(f: Fields, k: Key, b: Bindings, id: Text)
    requires UniqueKeysFields(f) && Has(f, k)
    ensures ManagedCountFields(f, id) == ManagedCountFields(Remove(f, k), id) + ManagedCount(Get(f, k).value, id)
    ensures PlacedFields(f, b) <==> PlacedFields(Remove(f, k), b) && Placed(Get(f, k).value, b, true)
  {
    if f.key == k {
      RemoveAbsent(f.rest, k);
    } else {
      RemoveParts(f.rest, k, b, id);
    }
  }

  // ----- unmanaged is placed and not counted -----

  predicate Counted(id: Text) {
    id == CredentialMaterial || id == CertificateMaterial || id == TransportMaterial
  }

  predicate Zero(c: Counts) {
    c == Counts(0, 0, 0)
  }

  lemma {:induction false} UnmanagedIff(n: Node, b: Bindings, named: bool)
    ensures Unmanaged(n) <==> Placed(n, b, named) && Zero(Tally(n))
    decreases n
  {
    if SaysManaged(n) {
      assert WellFormedRef(n) ==> IsManaged(n, IdOf(n));
    } else {
      assert Placed(n, b, named) == PlacedBelow(n, b);
      match n {
        case Arr(items) => UnmanagedInIff(items, b);
        case Tables(items) => UnmanagedInIff(items, b);
        case Inline(f) => UnmanagedFieldsIff(f, b);
        case Table(f) => UnmanagedFieldsIff(f, b);
        case _ => assert ManagedCount(n, CredentialMaterial) == 0 && ManagedCount(n, CertificateMaterial) == 0 && ManagedCount(n, TransportMaterial) == 0;
      }
    }
  }

  lemma {:induction false} UnmanagedInIff(items: Nodes, b: Bindings)
    ensures UnmanagedIn(items) <==> PlacedIn(items, b) && Zero(TallyIn(items))
    decreases items
  {
    if items.Cons? {
      UnmanagedIff(items.head, b, false);
      UnmanagedInIff(items.tail, b);
    }
  }

  lemma {:induction false} UnmanagedFieldsIff(f: Fields, b: Bindings)
    ensures UnmanagedFields(f) <==> PlacedFields(f, b) && Zero(TallyFields(f))
    decreases f
  {
    if f.Field? {
      UnmanagedIff(f.value, b, true);
      UnmanagedFieldsIff(f.rest, b);
    }
  }

  // ----- a patched document finalises exactly when nothing else in it is managed -----

  /** Everything in a document but three fields: the secret of a credential, and two of an outbound's security. */
  function Others(r: Fields, outbound: Fields, security: Fields, credential: Fields, i: nat, j: nat): Nodes
    requires TablesOf(r, Outbounds).Some? && TablesOf(r, Credentials).Some?
  {
    Cons(Table(Remove(Remove(r, Outbounds), Credentials)),
      Cons(Table(Remove(outbound, Security)),
        Cons(Table(Remove(Remove(security, PinnedCertificate), TransportSecret)),
          Cons(Table(Remove(credential, Secret)),
            Append(Without(TablesOf(r, Outbounds).value, i), Without(TablesOf(r, Credentials).value, j))))))
  }

  predicate PartsOf(r: Fields, outbound: Fields, security: Fields, credential: Fields, i: nat, j: nat) {
    && TablesOf(r, Outbounds).Some? && i < |ToSeq(TablesOf(r, Outbounds).value)| && ToSeq(TablesOf(r, Outbounds).value)[i] == Table(outbound)
    && TablesOf(r, Credentials).Some? && j < |ToSeq(TablesOf(r, Credentials).value)| && ToSeq(TablesOf(r, Credentials).value)[j] == Table(credential)
    && Get(outbound, Security) == Some(Table(security)) && SecurityManages(security) && CredentialManages(credential)
  }

  lemma {:induction false} ReferenceParts(id: Text, b: Bindings, counted: Text)
    requires Counted(id)
    ensures Placed(ManagedSource(id), b, true) && ManagedCount(ManagedSource(id), counted) == if counted == id then 1 else 0
  {
    var n := ManagedSource(id);
    var f := n.fields;
    assert Get(f, Id) == Get(f.rest, Id) == Some(Str(id));
    assert Length(f) == 1 + Length(f.rest) && Length(f.rest) == 1 + Length(f.rest.rest);
    assert WellFormedRef(n);
    RefIsFlat(n, counted);
  }

  lemma {:induction false} SecurityParts(security: Fields, b: Bindings, id: Text)
    requires UniqueKeysFields(security) && SecurityManages(security)
    ensures var rest := Remove(Remove(security, PinnedCertificate), TransportSecret);
      && (PlacedFields(security, b) <==> PlacedFields(rest, b))
      && ManagedCountFields(security, id) == ManagedCountFields(rest, id) + (if id == CertificateMaterial || id == TransportMaterial then 1 else 0)
  {
    var g := Remove(security, PinnedCertificate);
    RemoveUnique(security, PinnedCertificate);
    RemoveParts(security, PinnedCertificate, b, id);
    RemoveParts(g, TransportSecret, b, id);
    ReferenceParts(CertificateMaterial, b, id);
    ReferenceParts(TransportMaterial, b, id);
  }

  lemma {:induction false} OutboundParts(outbound: Fields, security: Fields, b: Bindings, id: Text)
    requires UniqueKeysFields(outbound) && Get(outbound, Security) == Some(Table(security)) && SecurityManages(security)
    ensures var rest := Remove(Remove(security, PinnedCertificate), TransportSecret);
      && (PlacedFields(outbound, b) <==> PlacedFields(Remove(outbound, Security), b) && PlacedFields(rest, b))
      && ManagedCountFields(outbound, id) == ManagedCountFields(Remove(outbound, Security), id) + ManagedCountFields(rest, id)
           + (if id == CertificateMaterial || id == TransportMaterial then 1 else 0)
  {
    ValueUnique(outbound, Security);
    RemoveParts(outbound, Security, b, id);
    SecurityParts(security, b, id);
  }

  lemma {:induction false} CredentialParts(credential: Fields, b: Bindings, id: Text)
    requires UniqueKeysFields(credential) && CredentialManages(credential)
    ensures PlacedFields(credential, b) <==> PlacedFields(Remove(credential, Secret), b)
    ensures ManagedCountFields(credential, id) == ManagedCountFields(Remove(credential, Secret), id) + (if id == CredentialMaterial then 1 else 0)
  {
    RemoveParts(credential, Secret, b, id);
    ReferenceParts(CredentialMaterial, b, id);
  }

  lemma {:induction false} TopParts(r: Fields, b: Bindings, id: Text)
    requires UniqueKeysFields(r) && TablesOf(r, Outbounds).Some? && TablesOf(r, Credentials).Some?
    ensures var rest := Remove(Remove(r, Outbounds), Credentials);
      && (PlacedFields(r, b) <==> PlacedFields(rest, b) && PlacedIn(TablesOf(r, Outbounds).value, b) && PlacedIn(TablesOf(r, Credentials).value, b))
      && ManagedCountFields(r, id) == ManagedCountFields(rest, id) + ManagedCountIn(TablesOf(r, Outbounds).value, id) + ManagedCountIn(TablesOf(r, Credentials).value, id)
  {
    RemoveUnique(r, Outbounds);
    RemoveParts(r, Outbounds, b, id);
    RemoveParts(Remove(r, Outbounds), Credentials, b, id);
  }

  lemma {:induction false} ConsTable(f: Fields, tail: Nodes, b: Bindings, id: Text)
    ensures PlacedIn(Cons(Table(f), tail), b) <==> PlacedFields(f, b) && PlacedIn(tail, b)
    ensures ManagedCountIn(Cons(Table(f), tail), id) == ManagedCountFields(f, id) + ManagedCountIn(tail, id)
  {
    assert Placed(Table(f), b, false) == PlacedBelow(Table(f), b);
    assert ManagedCount(Table(f), id) == ManagedCountFields(f, id);
  }

  lemma {:induction false} OthersParts(r: Fields, outbound: Fields, security: Fields, credential: Fields, i: nat, j: nat, b: Bindings, id: Text)
    requires UniqueKeysFields(r) && PartsOf(r, outbound, security, credential, i, j)
    ensures PlacedFields(r, b) <==> PlacedIn(Others(r, outbound, security, credential, i, j), b)
    ensures ManagedCountFields(r, id) == ManagedCountIn(Others(r, outbound, security, credential, i, j), id) + (if Counted(id) then 1 else 0)
  {
    var outbounds, credentials := TablesOf(r, Outbounds).value, TablesOf(r, Credentials).value;
    ValueUnique(r, Outbounds);
    ValueUnique(r, Credentials);
    ItemUnique(outbounds, i);
    ItemUnique(credentials, j);
    TopParts(r, b, id);
    WithoutParts(outbounds, i, b, id);
    WithoutParts(credentials, j, b, id);
    OutboundParts(outbound, security, b, id);
    CredentialParts(credential, b, id);
    AppendParts(Without(outbounds, i), Without(credentials, j), b, id);
    var tail := Append(Without(outbounds, i), Without(credentials, j));
    var fourth := Cons(Table(Remove(credential, Secret)), tail);
    var third := Cons(Table(Remove(Remove(security, PinnedCertificate), TransportSecret)), fourth);
    var second := Cons(Table(Remove(outbound, Security)), third);
    ConsTable(Remove(credential, Secret), tail, b, id);
    ConsTable(Remove(Remove(security, PinnedCertificate), TransportSecret), fourth, b, id);
    ConsTable(Remove(outbound, Security), third, b, id);
    ConsTable(Remove(Remove(r, Outbounds), Credentials), second, b, id);
    ConsTable(outbound, Nil, b, id);
    ConsTable(credential, Nil, b, id);
  }

  /** A document with the three references where a patch puts them can be finalised if and only if nothing else in it is managed. */
  lemma {:induction false} FinalizesIff(r: Fields, outbound: Fields, security: Fields, credential: Fields, i: nat, j: nat, b: Bindings)
    requires UniqueKeysFields(r) && PartsOf(r, outbound, security, credential, i, j)
    ensures Document(r, b).Ok? <==> UnmanagedIn(Others(r, outbound, security, credential, i, j))
  {
    DocumentFinalized(r, b);
    UnmanagedInIff(Others(r, outbound, security, credential, i, j), b);
    OthersParts(r, outbound, security, credential, i, j, b, CredentialMaterial);
    OthersParts(r, outbound, security, credential, i, j, b, CertificateMaterial);
    OthersParts(r, outbound, security, credential, i, j, b, TransportMaterial);
  }

  /** Everything the editor saves can be finalised if and only if nothing but the three references it wrote is managed. */
  lemma {:induction false} SavedDocumentFinalizesIff(doc: Fields, p: EditorProjection, r: Fields, b: Bindings)
    returns (outbound: Fields, security: Fields, credential: Fields, i: nat, j: nat)
    requires PatchEditor(doc, p) == Ok(r) && UniqueKeysFields(doc)
    ensures PartsOf(r, outbound, security, credential, i, j)
    ensures Document(r, b).Ok? <==> UnmanagedIn(Others(r, outbound, security, credential, i, j))
  {
    var migrated := MigrateEditor.Editor(doc).value;
    SavedDocumentUnique(doc, p, r);
    outbound, security, credential, i, j := PatchManages(migrated, p, r);
    FinalizesIff(r, outbound, security, credential, i, j, b);
  }

  // ----- what stands in the place of each reference -----

  /** The content of a reference, when there is one. */
  function ContentOf(b: Bindings, id: Text): Option<Node> {
    match b.transport
    case Some(secret) =>
      if id == CredentialMaterial then Some(Base64Source(b.credential)) else if id == CertificateMaterial then Some(Base64Source(b.certificate)) else Some(Base64Source(secret))
    case None =>
      if id == CredentialMaterial then Some(Base64Source(b.credential)) else if id == CertificateMaterial then Some(Base64Source(b.certificate)) else None
  }

  /** In every table, each reference gives way to the content of its own id, or to nothing. */
  lemma {:induction false} ReferenceReplaced(f: Fields, b: Bindings, k: Key, id: Text)
    requires UniqueKeysFields(f) && Counted(id) && Get(f, k) == Some(ManagedSource(id))
    ensures Get(SubstFields(f, b), k) == ContentOf(b, id)
  {
    if f.key == k {
      ReferenceParts(id, b, id);
      var n := ManagedSource(id);
      assert Get(n.fields, Id) == Get(n.fields.rest, Id) == Some(Str(id));
      assert Reference(n) && IdOf(n) == id;
      SubstAddsNoKey(f.rest, b, k);
    } else {
      ReferenceReplaced(f.rest, b, k, id);
    }
  }

  lemma {:induction false} TableSubstituted(f: Fields, b: Bindings, k: Key)
    requires UniqueKeysFields(f) && Has(f, k) && !SaysManaged(Get(f, k).value)
    ensures Get(SubstFields(f, b), k) == Some(Subst(Get(f, k).value, b))
  {
    if f.key != k {
      TableSubstituted(f.rest, b, k);
    }
  }

  lemma {:induction false} ItemSubstituted(items: Nodes, i: nat, b: Bindings)
    requires i < |ToSeq(items)|
    ensures i < |ToSeq(SubstIn(items, b))| && ToSeq(SubstIn(items, b))[i] == Subst(ToSeq(items)[i], b)
  {
    if i > 0 {
      ItemSubstituted(items.tail, i - 1, b);
    }
  }

  /** In a finalised document the credential's secret, the pin and the transport secret are the bound contents, each in its own place. */
  lemma {:induction false} MaterialsInPlace(r: Fields, outbound: Fields, security: Fields, credential: Fields, i: nat, j: nat, b: Bindings, d: Fields)
    requires UniqueKeysFields(r) && PartsOf(r, outbound, security, credential, i, j) && Document(r, b) == Ok(d)
    ensures TablesOf(d, Outbounds).Some? && i < |ToSeq(TablesOf(d, Outbounds).value)| && TablesOf(d, Credentials).Some? && j < |ToSeq(TablesOf(d, Credentials).value)|
    ensures ToSeq(TablesOf(d, Outbounds).value)[i] == Table(SubstFields(outbound, b)) && ToSeq(TablesOf(d, Credentials).value)[j] == Table(SubstFields(credential, b))
    ensures Get(SubstFields(credential, b), Secret) == Some(Base64Source(b.credential))
    ensures Get(SubstFields(outbound, b), Security) == Some(Table(SubstFields(security, b)))
    ensures Get(SubstFields(security, b), PinnedCertificate) == Some(Base64Source(b.certificate))
    ensures Get(SubstFields(security, b), TransportSecret) == if b.transport.Some? then Some(Base64Source(b.transport.value)) else None
  {
    DocumentFinalized(r, b);
    ValueUnique(r, Outbounds);
    ValueUnique(r, Credentials);
    TableSubstituted(r, b, Outbounds);
    TableSubstituted(r, b, Credentials);
    ItemUnique(TablesOf(r, Outbounds).value, i);
    ItemUnique(TablesOf(r, Credentials).value, j);
    ItemSubstituted(TablesOf(r, Outbounds).value, i, b);
    ItemSubstituted(TablesOf(r, Credentials).value, j, b);
    ValueUnique(outbound, Security);
    TableSubstituted(outbound, b, Security);
    ReferenceReplaced(credential, b, Secret, CredentialMaterial);
    ReferenceReplaced(security, b, PinnedCertificate, CertificateMaterial);
    ReferenceReplaced(security, b, TransportSecret, TransportMaterial);
  }
}
