/** The editor's migration of legacy documents (`migrate_editor` in `src/android.rs`). */
module Migrate {
  import opened Outcomes
  import opened Toml

  datatype MigrateError = DuplicatedMaterial | MixedAction | BadAction | BadReference | UnsupportedAction | NoSinglePinOwner

  // ----- one material of one table -----

  datatype Material = Material(key: Key, legacyKey: Key, token: Text, id: Text)

  const Credential := Material(Secret, SecretFile, LegacyCredential, CredentialMaterial)
  const Certificate := Material(PinnedCertificate, PinnedCertificateFile, LegacyCertificate, CertificateMaterial)
  const Transport := Material(TransportSecret, TransportSecretFile, LegacyTransport, TransportMaterial)

  predicate CanonicalKnown(f: Fields, m: Material) {
    Has(f, m.key) && (IsManaged(Get(f, m.key).value, m.id) || LegacyMatches(Get(f, m.key).value, m.token))
  }

  predicate LegacyKnown(f: Fields, m: Material) {
    Has(f, m.legacyKey) && LegacyMatches(Get(f, m.legacyKey).value, m.token)
  }

  function Canonicalize(f: Fields, m: Material): Result<Fields, MigrateError> {
    if LegacyKnown(f, m) && Has(f, m.key) then Err(DuplicatedMaterial)
    else if CanonicalKnown(f, m) then Ok(Set(f, m.key, ManagedSource(m.id)))
    else if LegacyKnown(f, m) then Ok(Set(Remove(f, m.legacyKey), m.key, ManagedSource(m.id)))
    else Ok(f)
  }

  /** The three materials, in the order the editor looks for them. */
  function CanonicalizeAll(f: Fields): Result<Fields, MigrateError> {
    match Canonicalize(f, Credential)
    case Err(e) => Err(e)
    case Ok(g) =>
      match Canonicalize(g, Certificate)
      case Err(e) => Err(e)
      case Ok(h) => Canonicalize(h, Transport)
  }

  predicate MaterialKey(k: Key) {
    k == Secret || k == SecretFile || k == PinnedCertificate || k == PinnedCertificateFile || k == TransportSecret || k == TransportSecretFile
  }

  predicate Known(m: Material) {
    m == Credential || m == Certificate || m == Transport
  }

  /** Nothing of this material is left to canonicalise. */
  predicate SettledFor(f: Fields, m: Material) {
    !LegacyKnown(f, m) && (CanonicalKnown(f, m) ==> Get(f, m.key) == Some(ManagedSource(m.id)))
  }

  predicate SettledFields(f: Fields) {
    SettledFor(f, Credential) && SettledFor(f, Certificate) && SettledFor(f, Transport)
  }

  lemma {:induction false} CanonicalizeSettles(f: Fields, m: Material, g: Fields)
    requires Known(m) && Canonicalize(f, m) == Ok(g)
    ensures SettledFor(g, m)
    ensures forall k | k != m.key && k != m.legacyKey :: Get(g, k) == Get(f, k)
  {
  }

  lemma {:induction false} SettledIsFixed(f: Fields, m: Material)
    requires SettledFor(f, m)
    ensures Canonicalize(f, m) == Ok(f)
  {
    if CanonicalKnown(f, m) {
      SetSame(f, m.key);
    }
  }

  lemma {:induction false} CanonicalizeAllSettles(f: Fields, g: Fields)
    requires CanonicalizeAll(f) == Ok(g)
    ensures SettledFields(g)
    ensures forall k | !MaterialKey(k) :: Get(g, k) == Get(f, k)
  {
    var a := Canonicalize(f, Credential).value;
    var b := Canonicalize(a, Certificate).value;
    CanonicalizeSettles(f, Credential, a);
    CanonicalizeSettles(a, Certificate, b);
    CanonicalizeSettles(b, Transport, g);
  }

  // ----- a measure that canonicalisation does not increase -----

  predicate LegacyToken(t: Text) {
    t == LegacyCredential || t == LegacyCertificate || t == LegacyTransport
  }

  function Weight(n: Node): (w: nat)
    ensures w > 0
  {
    match n
    case Str(text) => if LegacyToken(text) then 9 else 1
    case Arr(items) => 1 + WeightIn(items)
    case Inline(f) => 1 + WeightFields(f)
    case Table(f) => 1 + WeightFields(f)
    case Tables(items) => 1 + WeightIn(items)
    case _ => 1
  }

  function WeightIn(items: Nodes): nat {
    match items
    case Nil => 0
    case Cons(head, tail) => 1 + Weight(head) + WeightIn(tail)
  }

  function WeightFields(f: Fields): nat {
    match f
    case End => 0
    case Field(_, value, rest) => 1 + Weight(value) + WeightFields(rest)
  }

  lemma {:induction false} GetWeight(f: Fields, k: Key)
    requires Has(f, k)
    ensures WeightFields(f) >= 1 + Weight(Get(f, k).value)
  {
    if f.key != k {
      GetWeight(f.rest, k);
    }
  }

  lemma {:induction false} SetWeight(f: Fields, k: Key, v: Node)
    ensures WeightFields(Set(f, k, v)) == WeightFields(f) + if Has(f, k) then Weight(v) - Weight(Get(f, k).value) else 1 + Weight(v)
  {
    if f.Field? && f.key != k {
      SetWeight(f.rest, k, v);
    }
  }

  lemma {:induction false} RemoveWeight(f: Fields, k: Key)
    ensures WeightFields(Remove(f, k)) + (if Has(f, k) then 1 + Weight(Get(f, k).value) else 0) <= WeightFields(f)
  {
    if f.Field? {
      RemoveWeight(f.rest, k);
    }
  }

  lemma {:induction false} ManagedWeight(n: Node, id: Text)
    requires IsManaged(n, id) && !LegacyToken(id)
    ensures Weight(n) >= 5
  {
    DistinctFieldsWeight(n.fields, From, Id);
  }

  lemma {:induction false} DistinctFieldsWeight(f: Fields, a: Key, b: Key)
    requires a != b && Has(f, a) && Has(f, b)
    ensures WeightFields(f) >= 2 + Weight(Get(f, a).value) + Weight(Get(f, b).value)
  {
    if f.key == a {
      GetWeight(f.rest, b);
    } else if f.key == b {
      GetWeight(f.rest, a);
    } else {
      DistinctFieldsWeight(f.rest, a, b);
    }
  }

  lemma {:induction false} LegacyWeight(n: Node, token: Text)
    requires LegacyMatches(n, token) && LegacyToken(token)
    ensures Weight(n) >= 9
  {
    if n.Inline? {
      GetWeight(n.fields, Path);
    }
  }

  lemma {:induction false} CanonicalizeWeight(f: Fields, m: Material, g: Fields)
    requires Known(m) && Canonicalize(f, m) == Ok(g)
    ensures WeightFields(g) <= WeightFields(f)
  {
    var source := ManagedSource(m.id);
    assert Weight(source) == 5;
    if CanonicalKnown(f, m) {
      SetWeight(f, m.key, source);
      if IsManaged(Get(f, m.key).value, m.id) {
        ManagedWeight(Get(f, m.key).value, m.id);
      } else {
        LegacyWeight(Get(f, m.key).value, m.token);
      }
    } else if LegacyKnown(f, m) {
      RemoveWeight(f, m.legacyKey);
      SetWeight(Remove(f, m.legacyKey), m.key, source);
      LegacyWeight(Get(f, m.legacyKey).value, m.token);
    }
  }

  lemma {:induction false} CanonicalizeAllWeight(f: Fields, g: Fields)
    requires CanonicalizeAll(f) == Ok(g)
    ensures WeightFields(g) <= WeightFields(f)
  {
    var a := Canonicalize(f, Credential).value;
    var b := Canonicalize(a, Certificate).value;
    CanonicalizeWeight(f, Credential, a);
    CanonicalizeWeight(a, Certificate, b);
    CanonicalizeWeight(b, Transport, g);
  }

  // ----- the whole tree -----

  function Materials(n: Node): Result<Node, MigrateError>
    decreases Weight(n)
  {
    match n
    case Arr(items) => (match MaterialsIn(items) case Ok(r) => Ok(Arr(r)) case Err(e) => Err(e))
    case Tables(items) => (match MaterialsIn(items) case Ok(r) => Ok(Tables(r)) case Err(e) => Err(e))
    case Inline(f) => (match MaterialsOf(f) case Ok(r) => Ok(Inline(r)) case Err(e) => Err(e))
    case Table(f) => (match MaterialsOf(f) case Ok(r) => Ok(Table(r)) case Err(e) => Err(e))
    case _ => Ok(n)
  }

  /** Canonicalise a table's own fields, then descend into what it now holds. */
  function MaterialsOf(f: Fields): Result<Fields, MigrateError>
    decreases WeightFields(f), 1
  {
    match CanonicalizeAll(f)
    case Err(e) => Err(e)
    case Ok(g) =>
      CanonicalizeAllWeight(f, g);
      MaterialsFields(g)
  }

  function MaterialsFields(f: Fields): Result<Fields, MigrateError>
    decreases WeightFields(f), 0
  {
    match f
    case End => Ok(End)
    case Field(key, value, rest) =>
      match Materials(value)
      case Err(e) => Err(e)
      case Ok(v) =>
        match MaterialsFields(rest)
        case Err(e) => Err(e)
        case Ok(r) => Ok(Field(key, v, r))
  }

  function MaterialsIn(items: Nodes): Result<Nodes, MigrateError>
    decreases WeightIn(items)
  {
    match items
    case Nil => Ok(Nil)
    case Cons(head, tail) =>
      match Materials(head)
      case Err(e) => Err(e)
      case Ok(h) =>
        match MaterialsIn(tail)
        case Err(e) => Err(e)
        case Ok(t) => Ok(Cons(h, t))
  }

  // ----- the migration settles every table of the tree -----

  predicate Settled(n: Node) {
    match n
    case Arr(items) => SettledIn(items)
    case Tables(items) => SettledIn(items)
    case Inline(f) => SettledFields(f) && SettledBelow(f)
    case Table(f) => SettledFields(f) && SettledBelow(f)
    case _ => true
  }

  predicate SettledIn(items: Nodes) {
    items.Nil? || (Settled(items.head) && SettledIn(items.tail))
  }

  predicate SettledBelow(f: Fields) {
    f.End? || (Settled(f.value) && SettledBelow(f.rest))
  }

  /** The strings under a key, and whether it is there, are what later looks at a table depend on. */
  ghost predicate SameShape(n: Node, m: Node) {
    match n
    case Str(_) => m == n
    case Inline(f) => m.Inline? && forall k | !MaterialKey(k) :: TextOf(Get(m.fields, k)) == TextOf(Get(f, k)) && (Has(m.fields, k) <==> Has(f, k))
    case _ => !m.Str? && !m.Inline?
  }

  lemma {:induction false} SameShapeSameKind(n: Node, m: Node, id: Text, token: Text)
    requires SameShape(n, m)
    ensures IsManaged(m, id) <==> IsManaged(n, id)
    ensures LegacyMatches(m, token) <==> LegacyMatches(n, token)
  {
    if n.Inline? {
      assert TextOf(Get(m.fields, From)) == TextOf(Get(n.fields, From));
      assert TextOf(Get(m.fields, Id)) == TextOf(Get(n.fields, Id));
      assert TextOf(Get(m.fields, Path)) == TextOf(Get(n.fields, Path));
      assert Has(m.fields, From) <==> Has(n.fields, From);
    }
  }

  /** Descending keeps the keys and replaces each value by its migration. */
  lemma {:induction false} FieldsMapped(f: Fields, g: Fields, k: Key)
    requires MaterialsFields(f) == Ok(g)
    ensures Has(g, k) <==> Has(f, k)
    ensures Has(f, k) ==> Materials(Get(f, k).value) == Ok(Get(g, k).value)
    decreases f
  {
    if f.Field? && f.key != k {
      FieldsMapped(f.rest, g.rest, k);
    }
  }

  lemma {:induction false} MaterialsKeepShape(n: Node, m: Node)
    requires Materials(n) == Ok(m)
    ensures SameShape(n, m)
    decreases Weight(n)
  {
    if n.Inline? {
      var f := CanonicalizeAll(n.fields).value;
      CanonicalizeAllSettles(n.fields, f);
      forall k | !MaterialKey(k)
        ensures TextOf(Get(m.fields, k)) == TextOf(Get(n.fields, k)) && (Has(m.fields, k) <==> Has(n.fields, k))
      {
        FieldsMapped(f, m.fields, k);
        if Has(f, k) {
          CanonicalizeAllWeight(n.fields, f);
          GetWeight(f, k);
          MaterialsKeepShape(Get(f, k).value, Get(m.fields, k).value);
        }
      }
    }
  }

  lemma {:induction false} ManagedIsFixed(id: Text)
    ensures Materials(ManagedSource(id)) == Ok(ManagedSource(id))
  {
    var f := ManagedSource(id).fields;
    forall k | MaterialKey(k) ensures Get(f, k) == None {
      assert Get(f.rest, k) == Get(f.rest.rest, k);
    }
    assert SettledFields(f);
    assert SettledBelow(f.rest.rest) && Settled(f.rest.value) && Settled(f.value);
    SettledFixed(ManagedSource(id));
  }

  lemma {:induction false} SettledForMapped(f: Fields, g: Fields, m: Material)
    requires Known(m) && SettledFor(f, m) && MaterialsFields(f) == Ok(g)
    ensures SettledFor(g, m)
  {
    FieldsMapped(f, g, m.key);
    FieldsMapped(f, g, m.legacyKey);
    if Has(f, m.legacyKey) {
      MaterialsKeepShape(Get(f, m.legacyKey).value, Get(g, m.legacyKey).value);
      SameShapeSameKind(Get(f, m.legacyKey).value, Get(g, m.legacyKey).value, m.id, m.token);
    }
    if Has(f, m.key) {
      MaterialsKeepShape(Get(f, m.key).value, Get(g, m.key).value);
      SameShapeSameKind(Get(f, m.key).value, Get(g, m.key).value, m.id, m.token);
      ManagedIsFixed(m.id);
    }
  }

  lemma {:induction false} MaterialsSettle(n: Node, m: Node)
    requires Materials(n) == Ok(m)
    ensures Settled(m)
    decreases Weight(n)
  {
    match n {
      case Arr(items) => MaterialsSettleIn(items, m.items);
      case Tables(items) => MaterialsSettleIn(items, m.items);
      case Inline(f) => MaterialsSettleOf(f, m.fields);
      case Table(f) => MaterialsSettleOf(f, m.fields);
      case _ =>
    }
  }

  lemma {:induction false} MaterialsSettleOf(f: Fields, r: Fields)
    requires MaterialsOf(f) == Ok(r)
    ensures SettledFields(r) && SettledBelow(r)
    decreases WeightFields(f), 1
  {
    var g := CanonicalizeAll(f).value;
    CanonicalizeAllSettles(f, g);
    CanonicalizeAllWeight(f, g);
    SettledForMapped(g, r, Credential);
    SettledForMapped(g, r, Certificate);
    SettledForMapped(g, r, Transport);
    MaterialsSettleBelow(g, r);
  }

  lemma {:induction false} MaterialsSettleBelow(f: Fields, r: Fields)
    requires MaterialsFields(f) == Ok(r)
    ensures SettledBelow(r)
    decreases WeightFields(f), 0
  {
    if f.Field? {
      MaterialsSettle(f.value, r.value);
      MaterialsSettleBelow(f.rest, r.rest);
    }
  }

  lemma {:induction false} MaterialsSettleIn(items: Nodes, r: Nodes)
    requires MaterialsIn(items) == Ok(r)
    ensures SettledIn(r)
    decreases WeightIn(items)
  {
    if items.Cons? {
      MaterialsSettle(items.head, r.head);
      MaterialsSettleIn(items.tail, r.tail);
    }
  }

  // ----- a settled tree is left alone -----

  lemma {:induction false} SettledFixed(n: Node)
    requires Settled(n)
    ensures Materials(n) == Ok(n)
    decreases n, 1
  {
    match n {
      case Arr(items) => SettledFixedIn(items);
      case Tables(items) => SettledFixedIn(items);
      case Inline(f) => SettledFixedOf(f);
      case Table(f) => SettledFixedOf(f);
      case _ =>
    }
  }

  lemma {:induction false} SettledFixedOf(f: Fields)
    requires SettledFields(f) && SettledBelow(f)
    ensures MaterialsOf(f) == Ok(f)
    decreases f, 1
  {
    SettledIsFixed(f, Credential);
    SettledIsFixed(f, Certificate);
    SettledIsFixed(f, Transport);
    SettledFixedBelow(f);
  }

  lemma {:induction false} SettledFixedBelow(f: Fields)
    requires SettledBelow(f)
    ensures MaterialsFields(f) == Ok(f)
    decreases f, 0
  {
    if f.Field? {
      SettledFixed(f.value);
      SettledFixedBelow(f.rest);
    }
  }

  lemma {:induction false} SettledFixedIn(items: Nodes)
    requires SettledIn(items)
    ensures MaterialsIn(items) == Ok(items)
    decreases items, 0
  {
    if items.Cons? {
      SettledFixed(items.head);
      SettledFixedIn(items.tail);
    }
  }
}
