/** Replacing managed material references by their contents (`finalize_managed_materials_in_*` in `src/android.rs`). */
module Finalize {
  import opened Outcomes
  import opened Toml

  datatype FinalizeError = Malformed | UnknownId | NotANamedField | WrongCounts

  /** The encoded materials; the transport secret is optional. */
  datatype Bindings = Bindings(credential: Text, certificate: Text, transport: Option<Text>)

  datatype Counts = Counts(credential: nat, certificate: nat, transport: nat)

  datatype Edit = NotManaged | Replace(replacement: Node) | Drop

  function Length(f: Fields): nat {
    match f
    case End => 0
    case Field(_, _, rest) => 1 + Length(rest)
  }

  predicate SaysManaged(n: Node) {
    n.Inline? && TextOf(Get(n.fields, From)) == Some(ManagedText)
  }

  // ----- the editor's traversal, threading its counters -----

  function EditOf(n: Node, b: Bindings, c: Counts): Result<(Edit, Counts), FinalizeError> {
    if !SaysManaged(n) then Ok((NotManaged, c))
    else if Length(n.fields) != 2 || TextOf(Get(n.fields, Id)).None? then Err(Malformed)
    else
      var id := TextOf(Get(n.fields, Id)).value;
      if id == CredentialMaterial then Ok((Replace(Base64Source(b.credential)), c.(credential := c.credential + 1)))
      else if id == CertificateMaterial then Ok((Replace(Base64Source(b.certificate)), c.(certificate := c.certificate + 1)))
      else if id == TransportMaterial then
        Ok((if b.transport.Some? then Replace(Base64Source(b.transport.value)) else Drop, c.(transport := c.transport + 1)))
      else Err(UnknownId)
  }

  /** A node that is not a named field: it may be replaced but not dropped. */
  function Finalized(n: Node, b: Bindings, c: Counts): Result<(Node, Counts), FinalizeError>
    decreases n, 1
  {
    match EditOf(n, b, c)
    case Err(e) => Err(e)
    case Ok((Replace(r), d)) => Ok((r, d))
    case Ok((Drop, _)) => Err(NotANamedField)
    case Ok((NotManaged, d)) => Descended(n, b, d)
  }

  function Descended(n: Node, b: Bindings, c: Counts): Result<(Node, Counts), FinalizeError>
    decreases n, 0
  {
    match n
    case Arr(items) => (match FinalizedIn(items, b, c) case Err(e) => Err(e) case Ok((r, d)) => Ok((Arr(r), d)))
    case Tables(items) => (match FinalizedIn(items, b, c) case Err(e) => Err(e) case Ok((r, d)) => Ok((Tables(r), d)))
    case Inline(f) => (match FinalizedFields(f, b, c) case Err(e) => Err(e) case Ok((r, d)) => Ok((Inline(r), d)))
    case Table(f) => (match FinalizedFields(f, b, c) case Err(e) => Err(e) case Ok((r, d)) => Ok((Table(r), d)))
    case _ => Ok((n, c))
  }

  function FinalizedIn(items: Nodes, b: Bindings, c: Counts): Result<(Nodes, Counts), FinalizeError> {
    match items
    case Nil => Ok((Nil, c))
    case Cons(head, tail) =>
      match Finalized(head, b, c)
      case Err(e) => Err(e)
      case Ok((h, d)) =>
        match FinalizedIn(tail, b, d)
        case Err(e) => Err(e)
        case Ok((t, e)) => Ok((Cons(h, t), e))
  }

  /** The fields of a table: a managed field is edited here, any other value is inspected again on descent. */
  function FinalizedFields(f: Fields, b: Bindings, c: Counts): Result<(Fields, Counts), FinalizeError> {
    match f
    case End => Ok((End, c))
    case Field(key, value, rest) =>
      match EditOf(value, b, c)
      case Err(e) => Err(e)
      case Ok((edit, d)) =>
        match (if edit.NotManaged? then Finalized(value, b, d) else Ok((if edit.Replace? then edit.replacement else value, d)))
        case Err(e) => Err(e)
        case Ok((v, e)) =>
          match FinalizedFields(rest, b, e)
          case Err(x) => Err(x)
          case Ok((r, g)) => Ok((if edit.Drop? then r else Field(key, v, r), g))
  }

  function Document(doc: Fields, b: Bindings): Result<Fields, FinalizeError> {
    match FinalizedFields(doc, b, Counts(0, 0, 0))
    case Err(e) => Err(e)
    case Ok((r, c)) => if c == Counts(1, 1, 1) then Ok(r) else Err(WrongCounts)
  }

  // ----- the same as a plain substitution -----

  function Binding(b: Bindings, id: Text): Option<Text> {
    if id == CredentialMaterial then Some(b.credential)
    else if id == CertificateMaterial then Some(b.certificate)
    else b.transport
  }

  predicate Reference(n: Node) {
    SaysManaged(n) && TextOf(Get(n.fields, Id)).Some?
  }

  function IdOf(n: Node): Text
    requires Reference(n)
  {
    TextOf(Get(n.fields, Id)).value
  }

  function Subst(n: Node, b: Bindings): Node {
    if Reference(n) then
      if Binding(b, IdOf(n)).Some? then Base64Source(Binding(b, IdOf(n)).value) else n
    else match n
      case Arr(items) => Arr(SubstIn(items, b))
      case Tables(items) => Tables(SubstIn(items, b))
      case Inline(f) => Inline(SubstFields(f, b))
      case Table(f) => Table(SubstFields(f, b))
      case _ => n
  }

  function SubstIn(items: Nodes, b: Bindings): Nodes {
    match items
    case Nil => Nil
    case Cons(head, tail) => Cons(Subst(head, b), SubstIn(tail, b))
  }

  function SubstFields(f: Fields, b: Bindings): Fields {
    match f
    case End => End
    case Field(key, value, rest) =>
      if Reference(value) && Binding(b, IdOf(value)).None? then SubstFields(rest, b) else Field(key, Subst(value, b), SubstFields(rest, b))
  }

  // ----- where references may stand -----

  predicate WellFormedRef(n: Node) {
    Reference(n) && Length(n.fields) == 2 && (IdOf(n) == CredentialMaterial || IdOf(n) == CertificateMaterial || IdOf(n) == TransportMaterial)
  }

  /** Every reference is well formed and, when it would be dropped, is a named field. */
  predicate Placed(n: Node, b: Bindings, named: bool)
    decreases n, 1
  {
    if SaysManaged(n) then WellFormedRef(n) && (Binding(b, IdOf(n)).Some? || named) else PlacedBelow(n, b)
  }

  predicate PlacedBelow(n: Node, b: Bindings)
    decreases n, 0
  {
    match n
    case Arr(items) => PlacedIn(items, b)
    case Tables(items) => PlacedIn(items, b)
    case Inline(f) => PlacedFields(f, b)
    case Table(f) => PlacedFields(f, b)
    case _ => true
  }

  predicate PlacedIn(items: Nodes, b: Bindings) {
    items.Nil? || (Placed(items.head, b, false) && PlacedIn(items.tail, b))
  }

  predicate PlacedFields(f: Fields, b: Bindings) {
    f.End? || (Placed(f.value, b, true) && PlacedFields(f.rest, b))
  }

  // ----- counting -----

  function Tally(n: Node): Counts {
    Counts(ManagedCount(n, CredentialMaterial), ManagedCount(n, CertificateMaterial), ManagedCount(n, TransportMaterial))
  }

  function TallyIn(items: Nodes): Counts {
    Counts(ManagedCountIn(items, CredentialMaterial), ManagedCountIn(items, CertificateMaterial), ManagedCountIn(items, TransportMaterial))
  }

  function TallyFields(f: Fields): Counts {
    Counts(ManagedCountFields(f, CredentialMaterial), ManagedCountFields(f, CertificateMaterial), ManagedCountFields(f, TransportMaterial))
  }

  function Plus(a: Counts, b: Counts): Counts {
    Counts(a.credential + b.credential, a.certificate + b.certificate, a.transport + b.transport)
  }

  lemma {:induction false} OneField(f: Fields, k: Key)
    requires Length(f) == 1 && Has(f, k)
    ensures f == Field(k, Get(f, k).value, End)
  {
    assert f.rest.End?;
  }

  /** A well-formed reference holds two strings and so no further reference. */
  lemma {:induction false} RefIsFlat(n: Node, id: Text)
    requires WellFormedRef(n)
    ensures ManagedCountFields(n.fields, id) == 0
  {
    var f := n.fields;
    if f.key != From {
      OneField(f.rest, From);
    }
    if f.key != Id {
      OneField(f.rest, Id);
    }
    assert f.value.Str? && f.rest.value.Str?;
    assert ManagedCountFields(f.rest, id) == 0;
  }

  lemma {:induction false} RefTally(n: Node, b: Bindings, c: Counts)
    requires WellFormedRef(n)
    ensures EditOf(n, b, c).Ok? && EditOf(n, b, c).value.1 == Plus(c, Tally(n))
  {
    RefIsFlat(n, CredentialMaterial);
    RefIsFlat(n, CertificateMaterial);
    RefIsFlat(n, TransportMaterial);
  }

  // ----- the traversal is the substitution, and counts every reference once -----

  lemma {:induction false} FinalizedMeans(n: Node, b: Bindings, c: Counts)
    ensures Finalized(n, b, c).Ok? <==> Placed(n, b, false)
    ensures Placed(n, b, false) ==> Finalized(n, b, c) == Ok((Subst(n, b), Plus(c, Tally(n))))
    decreases n, 1
  {
    if SaysManaged(n) {
      if WellFormedRef(n) {
        RefTally(n, b, c);
      }
    } else {
      match n {
        case Arr(items) => FinalizedInMeans(items, b, c);
        case Tables(items) => FinalizedInMeans(items, b, c);
        case Inline(f) => FinalizedFieldsMeans(f, b, c);
        case Table(f) => FinalizedFieldsMeans(f, b, c);
        case _ =>
      }
    }
  }

  lemma {:induction false} FinalizedInMeans(items: Nodes, b: Bindings, c: Counts)
    ensures FinalizedIn(items, b, c).Ok? <==> PlacedIn(items, b)
    ensures PlacedIn(items, b) ==> FinalizedIn(items, b, c) == Ok((SubstIn(items, b), Plus(c, TallyIn(items))))
    decreases items, 0
  {
    if items.Cons? {
      FinalizedMeans(items.head, b, c);
      if Placed(items.head, b, false) {
        FinalizedInMeans(items.tail, b, Plus(c, Tally(items.head)));
      }
    }
  }

  lemma {:induction false} FinalizedFieldsMeans(f: Fields, b: Bindings, c: Counts)
    ensures FinalizedFields(f, b, c).Ok? <==> PlacedFields(f, b)
    ensures PlacedFields(f, b) ==> FinalizedFields(f, b, c) == Ok((SubstFields(f, b), Plus(c, TallyFields(f))))
    decreases f, 0
  {
    if f.Field? {
      if SaysManaged(f.value) {
        if WellFormedRef(f.value) {
          RefTally(f.value, b, c);
        }
      } else {
        FinalizedMeans(f.value, b, c);
      }
      if Placed(f.value, b, true) {
        FinalizedFieldsMeans(f.rest, b, Plus(c, Tally(f.value)));
      }
    }
  }

  // ----- nothing managed is left, and nothing else is touched -----

  predicate Unmanaged(n: Node) {
    !SaysManaged(n) &&
    match n
    case Arr(items) => UnmanagedIn(items)
    case Tables(items) => UnmanagedIn(items)
    case Inline(f) => UnmanagedFields(f)
    case Table(f) => UnmanagedFields(f)
    case _ => true
  }

  predicate UnmanagedIn(items: Nodes) {
    items.Nil? || (Unmanaged(items.head) && UnmanagedIn(items.tail))
  }

  predicate UnmanagedFields(f: Fields) {
    f.End? || (Unmanaged(f.value) && UnmanagedFields(f.rest))
  }

  lemma {:induction false} Base64Unmanaged(encoded: Text)
    ensures Unmanaged(Base64Source(encoded))
  {
    var f := Base64Source(encoded).fields;
    assert UnmanagedFields(f.rest.rest) && Unmanaged(f.value) && Unmanaged(f.rest.value);
  }

  /** A document never repeats a key within one table. */
  predicate UniqueKeys(n: Node) {
    match n
    case Arr(items) => UniqueKeysIn(items)
    case Tables(items) => UniqueKeysIn(items)
    case Inline(f) => UniqueKeysFields(f)
    case Table(f) => UniqueKeysFields(f)
    case _ => true
  }

  predicate UniqueKeysIn(items: Nodes) {
    items.Nil? || (UniqueKeys(items.head) && UniqueKeysIn(items.tail))
  }

  predicate UniqueKeysFields(f: Fields) {
    f.End? || (!Has(f.rest, f.key) && UniqueKeys(f.value) && UniqueKeysFields(f.rest))
  }

  lemma {:induction false} SubstAddsNoKey(f: Fields, b: Bindings, k: Key)
    requires !Has(f, k)
    ensures !Has(SubstFields(f, b), k)
  {
    if f.Field? {
      SubstAddsNoKey(f.rest, b, k);
    }
  }

  /** Dropping or replacing nested references never makes the enclosing value a reference. */
  lemma {:induction false} SubstKeepsFrom(f: Fields, b: Bindings)
    requires UniqueKeysFields(f) && TextOf(Get(f, From)) != Some(ManagedText)
    ensures TextOf(Get(SubstFields(f, b), From)) != Some(ManagedText)
  {
    if f.Field? {
      if f.key == From {
        SubstAddsNoKey(f.rest, b, From);
      } else {
        SubstKeepsFrom(f.rest, b);
      }
    }
  }

  lemma {:induction false} SubstUnmanaged(n: Node, b: Bindings)
    requires Placed(n, b, false) && UniqueKeys(n)
    ensures Unmanaged(Subst(n, b))
  {
    if SaysManaged(n) {
      Base64Unmanaged(Binding(b, IdOf(n)).value);
    } else {
      match n {
        case Arr(items) => SubstUnmanagedIn(items, b);
        case Tables(items) => SubstUnmanagedIn(items, b);
        case Inline(f) =>
          SubstKeepsFrom(f, b);
          SubstUnmanagedFields(f, b);
        case Table(f) => SubstUnmanagedFields(f, b);
        case _ =>
      }
    }
  }

  lemma {:induction false} SubstUnmanagedIn(items: Nodes, b: Bindings)
    requires PlacedIn(items, b) && UniqueKeysIn(items)
    ensures UnmanagedIn(SubstIn(items, b))
  {
    if items.Cons? {
      SubstUnmanaged(items.head, b);
      SubstUnmanagedIn(items.tail, b);
    }
  }

  lemma {:induction false} SubstUnmanagedFields(f: Fields, b: Bindings)
    requires PlacedFields(f, b) && UniqueKeysFields(f)
    ensures UnmanagedFields(SubstFields(f, b))
  {
    if f.Field? {
      if SaysManaged(f.value) {
        if Binding(b, IdOf(f.value)).Some? {
          Base64Unmanaged(Binding(b, IdOf(f.value)).value);
        }
      } else {
        SubstUnmanaged(f.value, b);
      }
      SubstUnmanagedFields(f.rest, b);
    }
  }

  /** Where nothing is managed the substitution changes nothing. */
  lemma {:induction false} SubstIdentity(n: Node, b: Bindings)
    requires Unmanaged(n)
    ensures Subst(n, b) == n
  {
    match n {
      case Arr(items) => SubstIdentityIn(items, b);
      case Tables(items) => SubstIdentityIn(items, b);
      case Inline(f) => SubstIdentityFields(f, b);
      case Table(f) => SubstIdentityFields(f, b);
      case _ =>
    }
  }

  lemma {:induction false} SubstIdentityIn(items: Nodes, b: Bindings)
    requires UnmanagedIn(items)
    ensures SubstIn(items, b) == items
  {
    if items.Cons? {
      SubstIdentity(items.head, b);
      SubstIdentityIn(items.tail, b);
    }
  }

  lemma {:induction false} SubstIdentityFields(f: Fields, b: Bindings)
    requires UnmanagedFields(f)
    ensures SubstFields(f, b) == f
  {
    if f.Field? {
      SubstIdentity(f.value, b);
      SubstIdentityFields(f.rest, b);
    }
  }

  /**
   Finalising succeeds exactly when every reference is well placed and each of the three
   occurs once; the result is then the substitution and no reference is left in it.
   */
  lemma {:induction false} DocumentFinalized(doc: Fields, b: Bindings)
    requires UniqueKeysFields(doc)
    ensures Document(doc, b).Ok? <==> PlacedFields(doc, b) && TallyFields(doc) == Counts(1, 1, 1)
    ensures Document(doc, b).Ok? ==> Document(doc, b).value == SubstFields(doc, b) && UnmanagedFields(Document(doc, b).value)
  {
    FinalizedFieldsMeans(doc, b, Counts(0, 0, 0));
    if PlacedFields(doc, b) {
      SubstUnmanagedFields(doc, b);
    }
  }
}
