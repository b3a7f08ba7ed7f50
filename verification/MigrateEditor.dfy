/** `migrate_editor` as a whole: routing actions, materials, and the missing transport marker. */
module MigrateEditor {
  import opened Outcomes
  import opened Toml
  import opened Migrate

  // ----- routing rules of version 0.3 -----

  function Reference(f: Fields, k: Key): Result<bool, MigrateError> {
    match Get(f, k)
    case None => Ok(false)
    case Some(n) => if n.Str? then Ok(true) else Err(BadReference)
  }

  function DecisionFor(f: Fields, action: Text, outbound: bool, balancer: bool): Result<Text, MigrateError> {
    if action == OutboundText then
      if outbound && !balancer then Ok(AllowText) else Err(UnsupportedAction)
    else if action == BalancerText then
      if balancer && !outbound then Ok(AllowText) else Err(UnsupportedAction)
    else if action == RejectText || action == DropText then
      if !outbound && !balancer && !Has(f, DnsPolicy) && !Has(f, InitialDemand) then Ok(action) else Err(UnsupportedAction)
    else Err(UnsupportedAction)
  }

  function Rule(f: Fields): Result<Fields, MigrateError> {
    if !Has(f, Action) then Ok(f)
    else if Has(f, Decision) then Err(MixedAction)
    else if !Get(f, Action).value.Str? then Err(BadAction)
    else match Reference(f, Outbound)
      case Err(e) => Err(e)
      case Ok(outbound) =>
        match Reference(f, Balancer)
        case Err(e) => Err(e)
        case Ok(balancer) =>
          match DecisionFor(f, Get(f, Action).value.text, outbound, balancer)
          case Err(e) => Err(e)
          case Ok(decision) => Ok(Set(Remove(f, Action), Decision, Str(decision)))
  }

  function RulesIn(items: Nodes): Result<Nodes, MigrateError> {
    match items
    case Nil => Ok(Nil)
    case Cons(head, tail) =>
      match (if head.Table? then Rule(head.fields) else Ok(End))
      case Err(e) => Err(e)
      case Ok(f) =>
        match RulesIn(tail)
        case Err(e) => Err(e)
        case Ok(t) => Ok(Cons(if head.Table? then Table(f) else head, t))
  }

  /** The rules of a document, when it has a routing table with an array of rule tables. */
  predicate HasRules(doc: Fields) {
    Has(doc, Routing) && Get(doc, Routing).value.Table? && Has(Get(doc, Routing).value.fields, Rules) && Get(Get(doc, Routing).value.fields, Rules).value.Tables?
  }

  function RulesOf(doc: Fields): Nodes
    requires HasRules(doc)
  {
    Get(Get(doc, Routing).value.fields, Rules).value.items
  }

  function RoutingActions(doc: Fields): Result<Fields, MigrateError> {
    if !HasRules(doc) then Ok(doc)
    else match RulesIn(RulesOf(doc))
      case Err(e) => Err(e)
      case Ok(rules) => Ok(Set(doc, Routing, Table(Set(Get(doc, Routing).value.fields, Rules, Tables(rules)))))
  }

  predicate NoActions(items: Nodes) {
    items.Nil? || ((items.head.Table? ==> !Has(items.head.fields, Action)) && NoActions(items.tail))
  }

  predicate RoutingDone(doc: Fields) {
    HasRules(doc) ==> NoActions(RulesOf(doc))
  }

  lemma {:induction false} RulesInDone(items: Nodes, r: Nodes)
    requires RulesIn(items) == Ok(r)
    ensures NoActions(r)
  {
    if items.Cons? {
      RulesInDone(items.tail, r.tail);
    }
  }

  lemma {:induction false} RulesInFixed(items: Nodes)
    requires NoActions(items)
    ensures RulesIn(items) == Ok(items)
  {
    if items.Cons? {
      RulesInFixed(items.tail);
    }
  }

  lemma {:induction false} RoutingActionsDone(doc: Fields, r: Fields)
    requires RoutingActions(doc) == Ok(r)
    ensures RoutingDone(r)
  {
    if HasRules(doc) {
      RulesInDone(RulesOf(doc), RulesOf(r));
    }
  }

  lemma {:induction false} RoutingActionsFixed(doc: Fields)
    requires RoutingDone(doc)
    ensures RoutingActions(doc) == Ok(doc)
  {
    if HasRules(doc) {
      RulesInFixed(RulesOf(doc));
      SetSame(Get(doc, Routing).value.fields, Rules);
      SetSame(doc, Routing);
    }
  }

  /** Migrating materials maps the values under every key that names no material. */
  lemma {:induction false} TableMapped(f: Fields, r: Fields, k: Key)
    requires MaterialsOf(f) == Ok(r) && !MaterialKey(k)
    ensures Has(r, k) <==> Has(f, k)
    ensures Has(f, k) ==> Materials(Get(f, k).value) == Ok(Get(r, k).value)
  {
    var g := CanonicalizeAll(f).value;
    CanonicalizeAllSettles(f, g);
    FieldsMapped(g, r, k);
  }

  lemma {:induction false} NoActionsMapped(items: Nodes, r: Nodes)
    requires NoActions(items) && MaterialsIn(items) == Ok(r)
    ensures NoActions(r)
  {
    if items.Cons? {
      if items.head.Table? {
        TableMapped(items.head.fields, r.head.fields, Action);
      }
      NoActionsMapped(items.tail, r.tail);
    }
  }

  lemma {:induction false} RoutingDoneMapped(doc: Fields, r: Fields)
    requires RoutingDone(doc) && MaterialsOf(doc) == Ok(r)
    ensures RoutingDone(r)
  {
    TableMapped(doc, r, Routing);
    if HasRules(r) {
      TableMapped(Get(doc, Routing).value.fields, Get(r, Routing).value.fields, Rules);
      NoActionsMapped(RulesOf(doc), RulesOf(r));
    }
  }

  // ----- the transport marker -----

  predicate OwnsPin(security: Fields) {
    Has(security, PinnedCertificate) && IsManaged(Get(security, PinnedCertificate).value, CertificateMaterial)
  }

  predicate OwnsPinNode(security: Node, inlineOnly: bool) {
    (security.Inline? || (!inlineOnly && security.Table?)) && OwnsPin(security.fields)
  }

  /** An MPP outbound whose security holds the managed pin; inside an inline array everything is inline. */
  predicate Owner(outbound: Node, inlineOnly: bool) {
    && (if inlineOnly then outbound.Inline? else outbound.Table?)
    && TextOf(Get(outbound.fields, Protocol)) == Some(Mpp)
    && Has(outbound.fields, Security)
    && OwnsPinNode(Get(outbound.fields, Security).value, inlineOnly)
  }

  function Owners(items: Nodes, inlineOnly: bool): nat {
    match items
    case Nil => 0
    case Cons(head, tail) => (if Owner(head, inlineOnly) then 1 else 0) + Owners(tail, inlineOnly)
  }

  function MarkFields(security: Fields): Fields {
    if Has(security, TransportSecret) || Has(security, TransportSecretFile) then security
    else Set(security, TransportSecret, ManagedSource(TransportMaterial))
  }

  function MarkSecurity(security: Node): Node {
    match security
    case Inline(f) => Inline(MarkFields(f))
    case Table(f) => Table(MarkFields(f))
    case _ => security
  }

  function Mark(outbound: Node): Node
    requires (outbound.Inline? || outbound.Table?) && Has(outbound.fields, Security)
  {
    var f := Set(outbound.fields, Security, MarkSecurity(Get(outbound.fields, Security).value));
    if outbound.Inline? then Inline(f) else Table(f)
  }

  function MarkOwners(items: Nodes, inlineOnly: bool): Nodes {
    match items
    case Nil => Nil
    case Cons(head, tail) => Cons(if Owner(head, inlineOnly) then Mark(head) else head, MarkOwners(tail, inlineOnly))
  }

  function InsertMarker(doc: Fields): Result<Fields, MigrateError> {
    match Get(doc, Outbounds)
    case Some(Tables(items)) => if Owners(items, false) == 1 then Ok(Set(doc, Outbounds, Tables(MarkOwners(items, false)))) else Err(NoSinglePinOwner)
    case Some(Arr(items)) => if Owners(items, true) == 1 then Ok(Set(doc, Outbounds, Arr(MarkOwners(items, true)))) else Err(NoSinglePinOwner)
    case _ => Err(NoSinglePinOwner)
  }

  function Editor(doc: Fields): Result<Fields, MigrateError> {
    match RoutingActions(doc)
    case Err(e) => Err(e)
    case Ok(routed) =>
      match MaterialsOf(routed)
      case Err(e) => Err(e)
      case Ok(migrated) => if ManagedCountFields(migrated, TransportMaterial) == 0 then InsertMarker(migrated) else Ok(migrated)
  }

  // ----- marking keeps the tree settled, and either changes nothing or adds a reference -----

  lemma {:induction false} SetSettledBelow(f: Fields, k: Key, v: Node)
    requires SettledBelow(f) && Settled(v)
    ensures SettledBelow(Set(f, k, v))
  {
    if f.Field? && f.key != k {
      SetSettledBelow(f.rest, k, v);
    }
  }

  lemma {:induction false} GetSettled(f: Fields, k: Key)
    requires SettledBelow(f) && Has(f, k)
    ensures Settled(Get(f, k).value)
  {
    if f.key != k {
      GetSettled(f.rest, k);
    }
  }

  lemma {:induction false} SetSettledFields(f: Fields, k: Key, v: Node)
    requires SettledFields(f) && SettledBelow(f) && !MaterialKey(k) && Settled(v)
    ensures SettledFields(Set(f, k, v)) && SettledBelow(Set(f, k, v))
  {
    SetSettledBelow(f, k, v);
  }

  lemma {:induction false} SourceSettled(id: Text)
    ensures Settled(ManagedSource(id)) && IsManaged(ManagedSource(id), id) && ManagedCount(ManagedSource(id), id) >= 1
  {
    ManagedIsFixed(id);
    MaterialsSettle(ManagedSource(id), ManagedSource(id));
  }

  lemma {:induction false} MarkFieldsSettled(f: Fields)
    requires SettledFields(f) && SettledBelow(f)
    ensures SettledFields(MarkFields(f)) && SettledBelow(MarkFields(f))
    ensures MarkFields(f) == f || ManagedCountFields(MarkFields(f), TransportMaterial) >= 1
  {
    SourceSettled(TransportMaterial);
    SetSettledBelow(f, TransportSecret, ManagedSource(TransportMaterial));
    if MarkFields(f) != f {
      CountedField(MarkFields(f), TransportSecret, TransportMaterial);
    }
  }

  lemma {:induction false} MarkSettled(outbound: Node)
    requires (outbound.Inline? || outbound.Table?) && Has(outbound.fields, Security) && Settled(outbound)
    ensures Settled(Mark(outbound))
    ensures Mark(outbound) == outbound || ManagedCount(Mark(outbound), TransportMaterial) >= 1
  {
    var f := outbound.fields;
    var security := Get(f, Security).value;
    GetSettled(f, Security);
    if security.Inline? || security.Table? {
      MarkFieldsSettled(security.fields);
    }
    var marked := MarkSecurity(security);
    SetSettledFields(f, Security, marked);
    if marked == security {
      SetSame(f, Security);
    } else {
      CountedField(Set(f, Security, marked), Security, TransportMaterial);
    }
  }

  lemma {:induction false} MarkOwnersSettled(items: Nodes, inlineOnly: bool)
    requires SettledIn(items)
    ensures SettledIn(MarkOwners(items, inlineOnly))
    ensures MarkOwners(items, inlineOnly) == items || ManagedCountIn(MarkOwners(items, inlineOnly), TransportMaterial) >= 1
  {
    if items.Cons? {
      MarkOwnersSettled(items.tail, inlineOnly);
      if Owner(items.head, inlineOnly) {
        MarkSettled(items.head);
      }
    }
  }

  lemma {:induction false} InsertMarkerSettled(doc: Fields, r: Fields)
    requires SettledFields(doc) && SettledBelow(doc) && InsertMarker(doc) == Ok(r)
    ensures SettledFields(r) && SettledBelow(r) && Get(r, Routing) == Get(doc, Routing)
    ensures r == doc || ManagedCountFields(r, TransportMaterial) >= 1
  {
    var outbounds := Get(doc, Outbounds).value;
    GetSettled(doc, Outbounds);
    MarkOwnersSettled(outbounds.items, outbounds.Arr?);
    var marked := Get(r, Outbounds).value;
    SetSettledFields(doc, Outbounds, marked);
    if marked == outbounds {
      SetSame(doc, Outbounds);
    } else {
      CountedField(r, Outbounds, TransportMaterial);
    }
  }

  /** Nothing is left to migrate anywhere in the document. */
  predicate Migrated(doc: Fields) {
    RoutingDone(doc) && SettledFields(doc) && SettledBelow(doc)
  }

  lemma {:induction false} EditorMigrates(doc: Fields, r: Fields)
    requires Editor(doc) == Ok(r)
    ensures Migrated(r)
    ensures ManagedCountFields(r, TransportMaterial) == 0 ==> InsertMarker(r) == Ok(r)
  {
    var routed := RoutingActions(doc).value;
    var migrated := MaterialsOf(routed).value;
    RoutingActionsDone(doc, routed);
    RoutingDoneMapped(routed, migrated);
    MaterialsSettleOf(routed, migrated);
    if ManagedCountFields(migrated, TransportMaterial) == 0 {
      InsertMarkerSettled(migrated, r);
    }
  }

  /** Migration is idempotent: a second run succeeds and changes nothing. */
  lemma {:induction false} EditorIdempotent(doc: Fields, r: Fields)
    requires Editor(doc) == Ok(r)
    ensures Editor(r) == Ok(r)
  {
    EditorMigrates(doc, r);
    RoutingActionsFixed(r);
    SettledFixedOf(r);
  }

  // ----- and no legacy material is left -----

  predicate NoLegacyIn(f: Fields, m: Material) {
    && (Has(f, m.key) ==> !LegacyMatches(Get(f, m.key).value, m.token))
    && (Has(f, m.legacyKey) ==> !LegacyMatches(Get(f, m.legacyKey).value, m.token))
  }

  lemma {:induction false} SettledHasNoLegacy(f: Fields, m: Material)
    requires Known(m) && SettledFor(f, m)
    ensures NoLegacyIn(f, m)
  {
    var source := ManagedSource(m.id).fields;
    assert Get(source, Path) == None by {
      assert Get(source.rest, Path) == Get(source.rest.rest, Path);
    }
  }

  predicate NoLegacy(n: Node) {
    match n
    case Arr(items) => NoLegacyItems(items)
    case Tables(items) => NoLegacyItems(items)
    case Inline(f) => NoLegacyTable(f)
    case Table(f) => NoLegacyTable(f)
    case _ => true
  }

  predicate NoLegacyTable(f: Fields)
    decreases f, 1
  {
    NoLegacyIn(f, Credential) && NoLegacyIn(f, Certificate) && NoLegacyIn(f, Transport) && NoLegacyBelow(f)
  }

  predicate NoLegacyBelow(f: Fields)
    decreases f, 0
  {
    f.End? || (NoLegacy(f.value) && NoLegacyBelow(f.rest))
  }

  predicate NoLegacyItems(items: Nodes) {
    items.Nil? || (NoLegacy(items.head) && NoLegacyItems(items.tail))
  }

  lemma {:induction false} SettledTree(n: Node)
    requires Settled(n)
    ensures NoLegacy(n)
    decreases n, 1
  {
    match n {
      case Arr(items) => SettledItems(items);
      case Tables(items) => SettledItems(items);
      case Inline(f) => SettledTable(f);
      case Table(f) => SettledTable(f);
      case _ =>
    }
  }

  lemma {:induction false} SettledTable(f: Fields)
    requires SettledFields(f) && SettledBelow(f)
    ensures NoLegacyTable(f)
    decreases f, 1
  {
    SettledHasNoLegacy(f, Credential);
    SettledHasNoLegacy(f, Certificate);
    SettledHasNoLegacy(f, Transport);
    SettledFieldValues(f);
  }

  lemma {:induction false} SettledFieldValues(f: Fields)
    requires SettledBelow(f)
    ensures NoLegacyBelow(f)
    decreases f, 0
  {
    if f.Field? {
      SettledTree(f.value);
      SettledFieldValues(f.rest);
    }
  }

  lemma {:induction false} SettledItems(items: Nodes)
    requires SettledIn(items)
    ensures NoLegacyItems(items)
    decreases items, 0
  {
    if items.Cons? {
      SettledTree(items.head);
      SettledItems(items.tail);
    }
  }

  /** After one successful run no routing action and no legacy material remains anywhere. */
  lemma {:induction false} EditorLeavesNoLegacy(doc: Fields, r: Fields)
    requires Editor(doc) == Ok(r)
    ensures RoutingDone(r) && NoLegacyTable(r)
  {
    EditorMigrates(doc, r);
    SettledTable(r);
  }
}
