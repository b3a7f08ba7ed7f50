/** What `migrate_editor` keeps: every material, every other table, and what each routing rule does. */
module MigrateMeaning {
  import opened Outcomes
  import opened Toml
  import opened Migrate
  import opened MigrateEditor

  // ----- one table -----

  /** A table holds a material: under its canonical key, as it is now or was, or under its legacy key. */
  predicate Holds(f: Fields, m: Material) {
    CanonicalKnown(f, m) || LegacyKnown(f, m)
  }

  /** A material held by `f` is in `g` as the managed reference, and no longer under the legacy key it was under. */
  predicate Carried(f: Fields, g: Fields, m: Material) {
    && (Holds(f, m) ==> Get(g, m.key) == Some(ManagedSource(m.id)))
    && (LegacyKnown(f, m) ==> !Has(g, m.legacyKey))
  }

  /** A key whose value gives way to a managed reference. */
  predicate GivesWay(f: Fields, m: Material, k: Key) {
    (k == m.key && Holds(f, m)) || (k == m.legacyKey && LegacyKnown(f, m))
  }

  predicate Converted(f: Fields, k: Key) {
    GivesWay(f, Credential, k) || GivesWay(f, Certificate, k) || GivesWay(f, Transport, k)
  }

  lemma {:induction false} CanonicalizeCarries(f: Fields, m: Material, g: Fields)
    requires Known(m) && Canonicalize(f, m) == Ok(g)
    ensures Carried(f, g, m)
    ensures forall k | !GivesWay(f, m, k) :: Get(g, k) == Get(f, k)
  {
  }

  lemma {:induction false} SameMaterial(f: Fields, g: Fields, m: Material, other: Material)
    requires Known(m) && Known(other) && m != other && forall k | !GivesWay(f, m, k) :: Get(g, k) == Get(f, k)
    ensures Holds(g, other) == Holds(f, other) && LegacyKnown(g, other) == LegacyKnown(f, other)
    ensures Get(g, other.key) == Get(f, other.key) && Get(g, other.legacyKey) == Get(f, other.legacyKey)
  {
    assert !GivesWay(f, m, other.key) && !GivesWay(f, m, other.legacyKey);
  }

  lemma {:induction false} CanonicalizeAllCarries(f: Fields, g: Fields)
    requires CanonicalizeAll(f) == Ok(g)
    ensures Carried(f, g, Credential) && Carried(f, g, Certificate) && Carried(f, g, Transport)
    ensures forall k | !Converted(f, k) :: Get(g, k) == Get(f, k)
  {
    var a := Canonicalize(f, Credential).value;
    var b := Canonicalize(a, Certificate).value;
    CanonicalizeCarries(f, Credential, a);
    CanonicalizeCarries(a, Certificate, b);
    CanonicalizeCarries(b, Transport, g);
    SameMaterial(f, a, Credential, Certificate);
    SameMaterial(f, a, Credential, Transport);
    SameMaterial(a, b, Certificate, Transport);
    SameMaterial(a, b, Certificate, Credential);
    SameMaterial(b, g, Transport, Credential);
    SameMaterial(b, g, Transport, Certificate);
    forall k | !Converted(f, k) ensures Get(g, k) == Get(f, k) {
      assert !GivesWay(f, Credential, k) && !GivesWay(a, Certificate, k) && !GivesWay(b, Transport, k);
    }
  }

  // ----- the whole tree -----

  /** The value of a routing action: the one kind of field that migration drops. */
  predicate LegacyAction(f: Fields, k: Key) {
    k == Action && Has(f, k) && Get(f, k).value.Str?
  }

  /** The only fields migration adds: a material's key for its legacy one, a decision for an action, and the transport marker. */
  predicate Added(f: Fields, g: Fields, k: Key) {
    || (k == Secret && LegacyKnown(f, Credential)) || (k == PinnedCertificate && LegacyKnown(f, Certificate)) || (k == TransportSecret && LegacyKnown(f, Transport))
    || (k == Decision && Has(f, Action))
    || (k == TransportSecret && Get(g, k) == Some(ManagedSource(TransportMaterial)) && !Has(f, TransportSecretFile) && OwnsPin(g))
  }

  /**
   Nothing is lost: the same strings, numbers and arrays in the same places; and in the
   corresponding table every material as its managed reference, and every other field but a
   routing action with its value kept in turn. And nothing but the fields above is added.
   */
  ghost predicate Keeps(n: Node, r: Node)
    decreases Weight(n)
  {
    match n
    case Arr(items) => r.Arr? && KeepsIn(items, r.items)
    case Tables(items) => r.Tables? && KeepsIn(items, r.items)
    case Inline(f) => r.Inline? && KeepsTable(f, r.fields)
    case Table(f) => r.Table? && KeepsTable(f, r.fields)
    case _ => r == n
  }

  ghost predicate KeepsIn(items: Nodes, r: Nodes)
    decreases WeightIn(items)
  {
    if items.Nil? then r.Nil? else r.Cons? && Keeps(items.head, r.head) && KeepsIn(items.tail, r.tail)
  }

  ghost predicate KeepsTable(f: Fields, g: Fields)
    decreases WeightFields(f)
  {
    && Carried(f, g, Credential) && Carried(f, g, Certificate) && Carried(f, g, Transport)
    && (forall k: Key | Has(f, k) && !Converted(f, k) && !LegacyAction(f, k) ::
          Has(g, k) && (GetWeight(f, k); Keeps(Get(f, k).value, Get(g, k).value)))
    && forall k: Key | Has(g, k) :: Has(f, k) || Added(f, g, k)
  }

  lemma {:induction false} MaterialsKeep(n: Node, r: Node)
    requires Materials(n) == Ok(r)
    ensures Keeps(n, r)
    decreases Weight(n)
  {
    match n {
      case Arr(items) => MaterialsKeepIn(items, r.items);
      case Tables(items) => MaterialsKeepIn(items, r.items);
      case Inline(f) => MaterialsKeepTable(f, r.fields);
      case Table(f) => MaterialsKeepTable(f, r.fields);
      case _ =>
    }
  }

  lemma {:induction false} MaterialsKeepIn(items: Nodes, r: Nodes)
    requires MaterialsIn(items) == Ok(r)
    ensures KeepsIn(items, r)
    decreases WeightIn(items)
  {
    if items.Cons? {
      MaterialsKeep(items.head, r.head);
      MaterialsKeepIn(items.tail, r.tail);
    }
  }

  lemma {:induction false} CarriedBelow(f: Fields, g: Fields, r: Fields, m: Material)
    requires Carried(f, g, m) && MaterialsFields(g) == Ok(r)
    ensures Carried(f, r, m)
  {
    FieldsMapped(g, r, m.key);
    FieldsMapped(g, r, m.legacyKey);
    ManagedIsFixed(m.id);
  }

  lemma {:induction false} MaterialsKeepTable(f: Fields, r: Fields)
    requires MaterialsOf(f) == Ok(r)
    ensures KeepsTable(f, r)
    decreases WeightFields(f)
  {
    var g := CanonicalizeAll(f).value;
    CanonicalizeAllCarries(f, g);
    CarriedBelow(f, g, r, Credential);
    CarriedBelow(f, g, r, Certificate);
    CarriedBelow(f, g, r, Transport);
    forall k: Key | Has(f, k) && !Converted(f, k) && !LegacyAction(f, k)
      ensures Has(r, k) && Keeps(Get(f, k).value, Get(r, k).value)
    {
      FieldsMapped(g, r, k);
      GetWeight(f, k);
      MaterialsKeep(Get(f, k).value, Get(r, k).value);
    }
    forall k: Key | Has(r, k) ensures Has(f, k) || Added(f, r, k) {
      FieldsMapped(g, r, k);
      assert !Converted(f, k) ==> Get(g, k) == Get(f, k);
    }
  }

  // ----- routing rules before it -----

  lemma {:induction false} SameHeld(f: Fields, g: Fields)
    requires forall k | MaterialKey(k) :: Get(g, k) == Get(f, k)
    ensures forall k :: Converted(g, k) == Converted(f, k)
    ensures forall m | Known(m) :: Holds(g, m) == Holds(f, m) && LegacyKnown(g, m) == LegacyKnown(f, m)
  {
    assert Get(g, Secret) == Get(f, Secret) && Get(g, SecretFile) == Get(f, SecretFile);
    assert Get(g, PinnedCertificate) == Get(f, PinnedCertificate) && Get(g, PinnedCertificateFile) == Get(f, PinnedCertificateFile);
    assert Get(g, TransportSecret) == Get(f, TransportSecret) && Get(g, TransportSecretFile) == Get(f, TransportSecretFile);
  }

  lemma {:induction false} RuleKeeps(f: Fields, g: Fields, r: Fields)
    requires Rule(f) == Ok(g) && KeepsTable(g, r)
    ensures KeepsTable(f, r)
  {
    if Has(f, Action) {
      assert forall k | k != Action && k != Decision :: Get(g, k) == Get(f, k);
      SameHeld(f, g);
      forall k: Key | Has(f, k) && !Converted(f, k) && !LegacyAction(f, k)
        ensures Has(r, k) && Keeps(Get(f, k).value, Get(r, k).value)
      {
        assert Get(g, k) == Get(f, k);
      }
      forall k: Key | Has(r, k) ensures Has(f, k) || Added(f, r, k) {
        assert Has(g, k) || Added(g, r, k);
      }
    }
  }

  lemma {:induction false} RulesKeep(items: Nodes, rules: Nodes, r: Nodes)
    requires RulesIn(items) == Ok(rules) && KeepsIn(rules, r)
    ensures KeepsIn(items, r)
  {
    if items.Cons? {
      if items.head.Table? {
        RuleKeeps(items.head.fields, rules.head.fields, r.head.fields);
      }
      RulesKeep(items.tail, rules.tail, r.tail);
    }
  }

  /** Exchanging one value that names no material, for one from which as much is kept. */
  lemma {:induction false} ExchangeKeeps(f: Fields, k: Key, v: Node, r: Fields)
    requires Has(f, k) && !MaterialKey(k) && k != Action && KeepsTable(Set(f, k, v), r)
    requires forall x :: Keeps(v, x) ==> Keeps(Get(f, k).value, x)
    ensures KeepsTable(f, r)
  {
    var g := Set(f, k, v);
    SameHeld(f, g);
    forall j: Key | Has(f, j) && !Converted(f, j) && !LegacyAction(f, j)
      ensures Has(r, j) && Keeps(Get(f, j).value, Get(r, j).value)
    {
      assert j != k ==> Get(g, j) == Get(f, j);
      assert Has(g, j) && !Converted(g, j) && !LegacyAction(g, j);
    }
    forall j: Key | Has(r, j) ensures Has(f, j) || Added(f, r, j) {
      assert Has(g, j) || Added(g, r, j);
    }
  }

  lemma {:induction false} RoutingKeeps(doc: Fields, routed: Fields, r: Fields)
    requires RoutingActions(doc) == Ok(routed) && KeepsTable(routed, r)
    ensures KeepsTable(doc, r)
  {
    if HasRules(doc) {
      var table := Get(doc, Routing).value.fields;
      var items := RulesOf(doc);
      var rules := RulesIn(items).value;
      var changed := Set(table, Rules, Tables(rules));
      forall x | Keeps(Tables(rules), x) ensures Keeps(Tables(items), x) {
        RulesKeep(items, rules, x.items);
      }
      forall x | Keeps(Table(changed), x) ensures Keeps(Table(table), x) {
        ExchangeKeeps(table, Rules, Tables(rules), x.fields);
      }
      ExchangeKeeps(doc, Routing, Table(changed), r);
    }
  }

  // ----- the transport marker after it -----

  lemma {:induction false} MarkFieldsKeep(f: Fields, g: Fields)
    requires KeepsTable(f, g) && OwnsPin(g)
    ensures KeepsTable(f, MarkFields(g))
  {
    var marked := MarkFields(g);
    forall k: Key | Has(f, k) && !Converted(f, k) && !LegacyAction(f, k)
      ensures Has(marked, k) && Keeps(Get(f, k).value, Get(marked, k).value)
    {
      assert Has(g, k);
    }
    forall k: Key | Has(marked, k) ensures Has(f, k) || Added(f, marked, k) {
      if Has(g, k) {
        assert Has(f, k) || Added(f, g, k);
      } else {
        assert Has(f, TransportSecretFile) ==> Converted(f, TransportSecretFile);
      }
    }
  }

  lemma {:induction false} MarkSecurityKeeps(n: Node, security: Node)
    requires Keeps(n, security) && ((security.Inline? || security.Table?) ==> OwnsPin(security.fields))
    ensures Keeps(n, MarkSecurity(security))
  {
    if n.Inline? || n.Table? {
      MarkFieldsKeep(n.fields, security.fields);
    }
  }

  /** Changing one value of the result that names no material, where what is kept stays kept. */
  lemma {:induction false} ChangeKeeps(f: Fields, g: Fields, k: Key, v: Node)
    requires KeepsTable(f, g) && Has(g, k) && !MaterialKey(k)
    requires forall x | Keeps(x, Get(g, k).value) :: Keeps(x, v)
    ensures KeepsTable(f, Set(g, k, v))
  {
    var changed := Set(g, k, v);
    forall j: Key | Has(f, j) && !Converted(f, j) && !LegacyAction(f, j)
      ensures Has(changed, j) && Keeps(Get(f, j).value, Get(changed, j).value)
    {
      assert Has(g, j);
    }
    forall j: Key | Has(changed, j) ensures Has(f, j) || Added(f, changed, j) {
      assert Has(g, j);
    }
  }

  lemma {:induction false} MarkKeeps(n: Node, outbound: Node)
    requires (outbound.Inline? || outbound.Table?) && Has(outbound.fields, Security) && Keeps(n, outbound)
    requires OwnsPinNode(Get(outbound.fields, Security).value, false)
    ensures Keeps(n, Mark(outbound))
  {
    var security := Get(outbound.fields, Security).value;
    forall x | Keeps(x, security) ensures Keeps(x, MarkSecurity(security)) {
      MarkSecurityKeeps(x, security);
    }
    ChangeKeeps(n.fields, outbound.fields, Security, MarkSecurity(security));
  }

  lemma {:induction false} MarkOwnersKeep(items: Nodes, outbounds: Nodes, inlineOnly: bool)
    requires KeepsIn(items, outbounds)
    ensures KeepsIn(items, MarkOwners(outbounds, inlineOnly))
  {
    if items.Cons? {
      if Owner(outbounds.head, inlineOnly) {
        MarkKeeps(items.head, outbounds.head);
      }
      MarkOwnersKeep(items.tail, outbounds.tail, inlineOnly);
    }
  }

  lemma {:induction false} MarkerKeeps(f: Fields, doc: Fields, r: Fields)
    requires KeepsTable(f, doc) && InsertMarker(doc) == Ok(r)
    ensures KeepsTable(f, r)
  {
    var outbounds, marked := Get(doc, Outbounds).value, Get(r, Outbounds).value;
    forall x | Keeps(x, outbounds) ensures Keeps(x, marked) {
      MarkOwnersKeep(x.items, outbounds.items, outbounds.Arr?);
    }
    ChangeKeeps(f, doc, Outbounds, marked);
  }

  /** Migration loses nothing, anywhere in the document. */
  lemma {:induction false} EditorLosesNothing(doc: Fields, r: Fields)
    requires Editor(doc) == Ok(r)
    ensures KeepsTable(doc, r)
  {
    var routed := RoutingActions(doc).value;
    var migrated := MaterialsOf(routed).value;
    MaterialsKeepTable(routed, migrated);
    RoutingKeeps(doc, routed, migrated);
    if ManagedCountFields(migrated, TransportMaterial) == 0 {
      MarkerKeeps(doc, migrated, r);
    }
  }

  // ----- what a routing rule does -----

  /** What a rule does with what it matches. */
  datatype Effect = ToOutbound(name: Text) | ToBalancer(name: Text) | Rejects | Drops

  predicate NamesNothing(f: Fields) {
    !Has(f, Outbound) && !Has(f, Balancer)
  }

  /** The effect of a version 0.3 rule, or nothing when it is malformed. */
  function LegacyEffect(f: Fields): Option<Effect> {
    var action := TextOf(Get(f, Action));
    if action == Some(OutboundText) && TextOf(Get(f, Outbound)).Some? && !Has(f, Balancer) then Some(ToOutbound(Get(f, Outbound).value.text))
    else if action == Some(BalancerText) && TextOf(Get(f, Balancer)).Some? && !Has(f, Outbound) then Some(ToBalancer(Get(f, Balancer).value.text))
    else if action == Some(RejectText) && NamesNothing(f) && !Has(f, DnsPolicy) && !Has(f, InitialDemand) then Some(Rejects)
    else if action == Some(DropText) && NamesNothing(f) && !Has(f, DnsPolicy) && !Has(f, InitialDemand) then Some(Drops)
    else None
  }

  /** The effect of a rule with a decision. */
  function DecisionEffect(f: Fields): Option<Effect> {
    var decision := TextOf(Get(f, Decision));
    if decision == Some(AllowText) && TextOf(Get(f, Outbound)).Some? && !Has(f, Balancer) then Some(ToOutbound(Get(f, Outbound).value.text))
    else if decision == Some(AllowText) && TextOf(Get(f, Balancer)).Some? && !Has(f, Outbound) then Some(ToBalancer(Get(f, Balancer).value.text))
    else if decision == Some(RejectText) then Some(Rejects)
    else if decision == Some(DropText) then Some(Drops)
    else None
  }

  function EffectOf(f: Fields): Option<Effect> {
    if Has(f, Action) then LegacyEffect(f) else DecisionEffect(f)
  }

  /** A rule is migrated exactly when it has no action, or a well-formed one and no decision; its effect is then the same. */
  lemma {:induction false} RuleKeepsEffect(f: Fields)
    ensures Rule(f).Ok? <==> !Has(f, Action) || (LegacyEffect(f).Some? && !Has(f, Decision))
    ensures Rule(f).Ok? ==> !Has(Rule(f).value, Action) && DecisionEffect(Rule(f).value) == EffectOf(f)
    ensures Rule(f).Ok? ==> forall k | k != Action && k != Decision :: Get(Rule(f).value, k) == Get(f, k)
  {
  }

  /** The rules of a list, one by one. */
  ghost predicate SameEffects(items: Nodes, r: Nodes) {
    if items.Nil? then r.Nil?
    else r.Cons? && (items.head.Table? <==> r.head.Table?) && (items.head.Table? ==> EffectOf(r.head.fields) == EffectOf(items.head.fields)) && SameEffects(items.tail, r.tail)
  }

  lemma {:induction false} RulesKeepEffects(items: Nodes, r: Nodes)
    requires RulesIn(items) == Ok(r)
    ensures SameEffects(items, r)
  {
    if items.Cons? {
      if items.head.Table? {
        RuleKeepsEffect(items.head.fields);
      }
      RulesKeepEffects(items.tail, r.tail);
    }
  }

  lemma {:induction false} TextMapped(f: Fields, r: Fields, k: Key)
    requires MaterialsOf(f) == Ok(r) && !MaterialKey(k)
    ensures Has(r, k) == Has(f, k) && TextOf(Get(r, k)) == TextOf(Get(f, k))
  {
    TableMapped(f, r, k);
    if Has(f, k) {
      MaterialsKeepShape(Get(f, k).value, Get(r, k).value);
    }
  }

  lemma {:induction false} MaterialsKeepEffect(f: Fields, r: Fields)
    requires MaterialsOf(f) == Ok(r)
    ensures EffectOf(r) == EffectOf(f)
  {
    TextMapped(f, r, Action);
    TextMapped(f, r, Decision);
    TextMapped(f, r, Outbound);
    TextMapped(f, r, Balancer);
    TextMapped(f, r, DnsPolicy);
    TextMapped(f, r, InitialDemand);
  }

  lemma {:induction false} MaterialsKeepEffects(items: Nodes, rules: Nodes, r: Nodes)
    requires SameEffects(items, rules) && MaterialsIn(rules) == Ok(r)
    ensures SameEffects(items, r)
  {
    if items.Cons? {
      if items.head.Table? {
        MaterialsKeepEffect(rules.head.fields, r.head.fields);
      }
      MaterialsKeepEffects(items.tail, rules.tail, r.tail);
    }
  }

  /** After migration every routing rule of the document does what it did before. */
  lemma {:induction false} EditorKeepsRouting(doc: Fields, r: Fields)
    requires Editor(doc) == Ok(r) && HasRules(doc)
    ensures HasRules(r) && SameEffects(RulesOf(doc), RulesOf(r))
  {
    var routed := RoutingActions(doc).value;
    var migrated := MaterialsOf(routed).value;
    RulesKeepEffects(RulesOf(doc), RulesOf(routed));
    TableMapped(routed, migrated, Routing);
    TableMapped(Get(routed, Routing).value.fields, Get(migrated, Routing).value.fields, Rules);
    MaterialsKeepEffects(RulesOf(doc), RulesOf(routed), RulesOf(migrated));
    if ManagedCountFields(migrated, TransportMaterial) == 0 {
      assert Get(r, Routing) == Get(migrated, Routing);
    }
  }

  // ----- the transport marker is there -----

  predicate HasTransport(security: Fields) {
    Has(security, TransportSecret) || Has(security, TransportSecretFile)
  }

  /** Every owner of the managed pin has a transport field. */
  predicate OwnersServed(items: Nodes, inlineOnly: bool) {
    items.Nil? || ((Owner(items.head, inlineOnly) ==> HasTransport(Get(items.head.fields, Security).value.fields)) && OwnersServed(items.tail, inlineOnly))
  }

  lemma {:induction false} MarkServes(outbound: Node, inlineOnly: bool)
    requires Owner(outbound, inlineOnly)
    ensures Owner(Mark(outbound), inlineOnly) && HasTransport(Get(Mark(outbound).fields, Security).value.fields)
    ensures var before, after := Get(outbound.fields, Security).value.fields, Get(Mark(outbound).fields, Security).value.fields;
      if HasTransport(before) then after == before else Get(after, TransportSecret) == Some(ManagedSource(TransportMaterial))
  {
  }

  lemma {:induction false} MarkOwnersServe(items: Nodes, inlineOnly: bool)
    ensures OwnersServed(MarkOwners(items, inlineOnly), inlineOnly) && Owners(MarkOwners(items, inlineOnly), inlineOnly) == Owners(items, inlineOnly)
  {
    if items.Cons? {
      MarkOwnersServe(items.tail, inlineOnly);
      if Owner(items.head, inlineOnly) {
        MarkServes(items.head, inlineOnly);
      }
    }
  }

  /** The outbounds of a document, and whether they stand in an inline array. */
  predicate Outbounded(doc: Fields, items: Nodes, inlineOnly: bool) {
    Get(doc, Outbounds) == Some(if inlineOnly then Arr(items) else Tables(items))
  }

  /** After migration there is a managed transport reference, or the one owner of the pin has a transport field of its own. */
  lemma {:induction false} EditorServesTransport(doc: Fields, r: Fields)
    requires Editor(doc) == Ok(r)
    ensures ManagedCountFields(r, TransportMaterial) > 0
      || exists items, inlineOnly :: Outbounded(r, items, inlineOnly) && Owners(items, inlineOnly) == 1 && OwnersServed(items, inlineOnly)
  {
    var migrated := MaterialsOf(RoutingActions(doc).value).value;
    if ManagedCountFields(migrated, TransportMaterial) == 0 {
      var outbounds := Get(migrated, Outbounds).value;
      MarkOwnersServe(outbounds.items, outbounds.Arr?);
      assert Outbounded(r, MarkOwners(outbounds.items, outbounds.Arr?), outbounds.Arr?);
    }
  }
}
