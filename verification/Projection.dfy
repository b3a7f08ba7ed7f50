/** The guided editor's projection of a document and the patch that writes one back (`src/android.rs`). */
module Projection {
  import opened Outcomes
  import opened Toml
  import opened PatchPaths

  datatype EditError =
    | NotATable(key: Key) | NotAString(key: Key) | NotANumber(key: Key) | BadLevel | BadMode | NoSingleOutbound | NoCredentialCatalog
    | NoSingleCredential | NoPathsArray | BadPath

  datatype Advanced = Advanced(
    probeInterval: real, probeTimeout: real, reinjectionBudget: int, authFreshness: real, retention: real,
    tcpInterval: real, tcpTimeout: real, quicKeepAlive: real, quicIdle: real)

  /** `target` has three states: keep, remove, or set. */
  datatype EditorProjection = EditorProjection(
    level: Text, target: Option<Option<Text>>, paths: seq<EditorPath>, advanced: Option<Advanced>,
    credentialId: Text, principalId: Text, serverName: Text)

  predicate ValidLevel(t: Text) {
    t == Off || t == ErrorLevel || t == Warn || t == Info || t == Debug
  }

  predicate ValidMode(t: Text) {
    t == AsIs || t == RouteOnly || t == FullResolve
  }

  // ----- arrays as sequences -----

  function ToSeq(items: Nodes): seq<Node> {
    match items
    case Nil => []
    case Cons(head, tail) => [head] + ToSeq(tail)
  }

  function FromSeq(s: seq<Node>): Nodes {
    if s == [] then Nil else Cons(s[0], FromSeq(s[1..]))
  }

  lemma {:induction false} FromToSeq(s: seq<Node>)
    ensures ToSeq(FromSeq(s)) == s
  {
    if s != [] {
      FromToSeq(s[1..]);
    }
  }

  // ----- the one table of an array that has a given string under a given key -----

  predicate Matches(n: Node, k: Key, t: Text) {
    n.Table? && TextOf(Get(n.fields, k)) == Some(t)
  }

  function CountOf(items: Nodes, k: Key, t: Text): nat {
    match items
    case Nil => 0
    case Cons(head, tail) => (if Matches(head, k, t) then 1 else 0) + CountOf(tail, k, t)
  }

  function First(items: Nodes, k: Key, t: Text): Fields
    requires CountOf(items, k, t) > 0
  {
    if Matches(items.head, k, t) then items.head.fields else First(items.tail, k, t)
  }

  function WithFirst(items: Nodes, k: Key, t: Text, f: Fields): Nodes
    requires CountOf(items, k, t) > 0
  {
    if Matches(items.head, k, t) then Cons(Table(f), items.tail) else Cons(items.head, WithFirst(items.tail, k, t, f))
  }

  /** How many tables other than the first match have another string under the key. */
  function CountOthers(items: Nodes, k: Key, t: Text, other: Text): nat
    requires CountOf(items, k, t) > 0
  {
    if Matches(items.head, k, t) then CountOf(items.tail, k, other)
    else (if Matches(items.head, k, other) then 1 else 0) + CountOthers(items.tail, k, t, other)
  }

  lemma {:induction false} WithFirstCounts(items: Nodes, k: Key, t: Text, f: Fields, u: Text)
    requires CountOf(items, k, t) > 0 && TextOf(Get(f, k)) == Some(u)
    ensures CountOf(WithFirst(items, k, t, f), k, u) == CountOthers(items, k, t, u) + 1
    ensures CountOthers(items, k, t, u) == 0 ==> First(WithFirst(items, k, t, f), k, u) == f
  {
    if !Matches(items.head, k, t) {
      WithFirstCounts(items.tail, k, t, f, u);
    }
  }

  lemma {:induction false} SameOthers(items: Nodes, k: Key, t: Text)
    requires CountOf(items, k, t) > 0
    ensures CountOthers(items, k, t, t) == CountOf(items, k, t) - 1
  {
    if !Matches(items.head, k, t) {
      SameOthers(items.tail, k, t);
    }
  }

  function IndexOf(items: Nodes, k: Key, t: Text): nat
    requires CountOf(items, k, t) > 0
  {
    if Matches(items.head, k, t) then 0 else 1 + IndexOf(items.tail, k, t)
  }

  /** Every table but the one replaced stays where it was. */
  lemma {:induction false} WithFirstKeepsOthers(items: Nodes, k: Key, t: Text, f: Fields)
    requires CountOf(items, k, t) > 0
    ensures IndexOf(items, k, t) < |ToSeq(items)| && ToSeq(items)[IndexOf(items, k, t)] == Table(First(items, k, t))
    ensures ToSeq(WithFirst(items, k, t, f)) == ToSeq(items)[IndexOf(items, k, t) := Table(f)]
  {
    if !Matches(items.head, k, t) {
      WithFirstKeepsOthers(items.tail, k, t, f);
    }
  }

  // ----- small readers -----

  function RequiredText(f: Fields, k: Key): Result<Text, EditError> {
    if TextOf(Get(f, k)).Some? then Ok(TextOf(Get(f, k)).value) else Err(NotAString(k))
  }

  function TextOr(f: Fields, k: Key, default: Text): Result<Text, EditError> {
    if !Has(f, k) then Ok(default) else RequiredText(f, k)
  }

  /** An existing child table, or nothing. */
  function ChildOf(f: Fields, k: Key): Option<Fields> {
    if Has(f, k) && Get(f, k).value.Table? then Some(Get(f, k).value.fields) else None
  }

  /** `ensure_child_table`: a missing table is made, anything else is an error. */
  function EnsuredChild(f: Fields, k: Key): Result<Fields, EditError> {
    if !Has(f, k) then Ok(End)
    else if Get(f, k).value.Table? then Ok(Get(f, k).value.fields)
    else Err(NotATable(k))
  }

  function NumberNode(x: real): Node {
    if x == x.Floor as real && -0x8000_0000_0000_0000 <= x.Floor < 0x7FFF_FFFF_FFFF_FFFF then Int(x.Floor) else Float(x)
  }

  function NumberOr(f: Option<Fields>, k: Key, default: real): Result<real, EditError> {
    if f.None? || !Has(f.value, k) then Ok(default)
    else match Get(f.value, k).value
      case Int(i) => Ok(i as real)
      case Float(x) => Ok(x)
      case _ => Err(NotANumber(k))
  }

  function IntegerOr(f: Option<Fields>, k: Key, default: int): Result<int, EditError> {
    if f.None? || !Has(f.value, k) then Ok(default)
    else match Get(f.value, k).value
      case Int(i) => Ok(i)
      case _ => Err(NotANumber(k))
  }

  predicate HasIn(f: Option<Fields>, k: Key) {
    f.Some? && Has(f.value, k)
  }

  // ----- the projection -----

  function ProjectLevel(doc: Fields): Result<Text, EditError> {
    if !Has(doc, Logging) then Ok(Info)
    else match ChildOf(doc, Logging)
      case None => Err(NotATable(Logging))
      case Some(logging) =>
        match TextOr(logging, Level, Info)
        case Err(e) => Err(e)
        case Ok(level) => if ValidLevel(level) then Ok(level) else Err(BadLevel)
  }

  function ProjectTarget(doc: Fields): Result<Option<Text>, EditError> {
    if !Has(doc, Routing) then Ok(None)
    else match ChildOf(doc, Routing)
      case None => Err(NotATable(Routing))
      case Some(routing) =>
        if !Has(routing, TargetResolution) then Ok(None)
        else match RequiredText(routing, TargetResolution)
          case Err(e) => Err(e)
          case Ok(mode) => if ValidMode(mode) then Ok(Some(mode)) else Err(BadMode)
  }

  function ProjectPath(n: Node): Result<EditorPath, EditError> {
    if n.Inline? && TextOf(Get(n.fields, Name)).Some? && TextOf(Get(n.fields, Endpoint)).Some?
    then Ok(EditorPath(TextOf(Get(n.fields, Name)).value, TextOf(Get(n.fields, Endpoint)).value))
    else Err(BadPath)
  }

  function ProjectPaths(s: seq<Node>): Result<seq<EditorPath>, EditError> {
    if s == [] then Ok([])
    else match ProjectPath(s[0])
      case Err(e) => Err(e)
      case Ok(path) =>
        match ProjectPaths(s[1..])
        case Err(e) => Err(e)
        case Ok(rest) => Ok([path] + rest)
  }

  predicate AnyAdvanced(doc: Fields, outbound: Fields, security: Fields) {
    || Has(outbound, ProbeInterval) || Has(outbound, ProbeTimeout) || HasIn(ChildOf(outbound, Performance), ReinjectionBudget)
    || Has(security, AuthFreshness) || HasIn(ChildOf(doc, Session), RetentionTimeout)
    || HasIn(ChildOf(doc, Resources), TcpHeartbeatInterval) || HasIn(ChildOf(doc, Resources), TcpHeartbeatTimeout)
    || HasIn(ChildOf(doc, Resources), QuicKeepAlive) || HasIn(ChildOf(doc, Resources), QuicIdleTimeout)
  }

  datatype Numbers = Numbers(
    probeInterval: Result<real, EditError>, probeTimeout: Result<real, EditError>, reinjectionBudget: Result<int, EditError>,
    authFreshness: Result<real, EditError>, retention: Result<real, EditError>, tcpInterval: Result<real, EditError>,
    tcpTimeout: Result<real, EditError>, quicKeepAlive: Result<real, EditError>, quicIdle: Result<real, EditError>)

  function AdvancedNumbers(doc: Fields, outbound: Fields, security: Fields, d: Advanced): Numbers {
    var resources := ChildOf(doc, Resources);
    Numbers(
      NumberOr(Some(outbound), ProbeInterval, d.probeInterval), NumberOr(Some(outbound), ProbeTimeout, d.probeTimeout),
      IntegerOr(ChildOf(outbound, Performance), ReinjectionBudget, d.reinjectionBudget),
      NumberOr(Some(security), AuthFreshness, d.authFreshness), NumberOr(ChildOf(doc, Session), RetentionTimeout, d.retention),
      NumberOr(resources, TcpHeartbeatInterval, d.tcpInterval), NumberOr(resources, TcpHeartbeatTimeout, d.tcpTimeout),
      NumberOr(resources, QuicKeepAlive, d.quicKeepAlive), NumberOr(resources, QuicIdleTimeout, d.quicIdle))
  }

  /** All numbers, or the first error in the order they are read. */
  function Gathered(n: Numbers): Result<Advanced, EditError> {
    if n.probeInterval.Err? then Err(n.probeInterval.error)
    else if n.probeTimeout.Err? then Err(n.probeTimeout.error)
    else if n.reinjectionBudget.Err? then Err(n.reinjectionBudget.error)
    else if n.authFreshness.Err? then Err(n.authFreshness.error)
    else if n.retention.Err? then Err(n.retention.error)
    else if n.tcpInterval.Err? then Err(n.tcpInterval.error)
    else if n.tcpTimeout.Err? then Err(n.tcpTimeout.error)
    else if n.quicKeepAlive.Err? then Err(n.quicKeepAlive.error)
    else if n.quicIdle.Err? then Err(n.quicIdle.error)
    else Ok(Advanced(n.probeInterval.value, n.probeTimeout.value, n.reinjectionBudget.value, n.authFreshness.value, n.retention.value,
                     n.tcpInterval.value, n.tcpTimeout.value, n.quicKeepAlive.value, n.quicIdle.value))
  }

  function ProjectAdvanced(doc: Fields, outbound: Fields, security: Fields, defaults: Advanced): Result<Option<Advanced>, EditError> {
    if !AnyAdvanced(doc, outbound, security) then Ok(None)
    else match Gathered(AdvancedNumbers(doc, outbound, security, defaults))
      case Ok(a) => Ok(Some(a))
      case Err(e) => Err(e)
  }

  /** The tables under a key that holds an array of tables. */
  function TablesOf(doc: Fields, k: Key): Option<Nodes> {
    if Has(doc, k) && Get(doc, k).value.Tables? then Some(Get(doc, k).value.items) else None
  }

  /** The one MPP outbound of a document. */
  function MppOutbound(doc: Fields): Result<Fields, EditError> {
    match TablesOf(doc, Outbounds)
    case None => Err(NoSingleOutbound)
    case Some(items) => if CountOf(items, Protocol, Mpp) == 1 then Ok(First(items, Protocol, Mpp)) else Err(NoSingleOutbound)
  }

  function Credential(doc: Fields, id: Text): Result<Fields, EditError> {
    match TablesOf(doc, Credentials)
    case None => Err(NoCredentialCatalog)
    case Some(items) => if CountOf(items, CredentialId, id) == 1 then Ok(First(items, CredentialId, id)) else Err(NoSingleCredential)
  }

  function SecurityOf(outbound: Fields): Result<Fields, EditError> {
    match ChildOf(outbound, Security)
    case None => Err(NotATable(Security))
    case Some(f) => Ok(f)
  }

  function PathsOf(outbound: Fields): Result<seq<Node>, EditError> {
    if Has(outbound, Paths) && Get(outbound, Paths).value.Arr? then Ok(ToSeq(Get(outbound, Paths).value.items)) else Err(NoPathsArray)
  }

  function Project(doc: Fields, defaults: Advanced): Result<EditorProjection, EditError> {
    match ProjectLevel(doc)
    case Err(e) => Err(e)
    case Ok(level) =>
      match ProjectTarget(doc)
      case Err(e) => Err(e)
      case Ok(target) =>
        match MppOutbound(doc)
        case Err(e) => Err(e)
        case Ok(outbound) =>
          match SecurityOf(outbound)
          case Err(e) => Err(e)
          case Ok(security) => ProjectOutbound(doc, level, target, outbound, security, defaults)
  }

  function ProjectOutbound(doc: Fields, level: Text, target: Option<Text>, outbound: Fields, security: Fields, defaults: Advanced): Result<EditorProjection, EditError> {
    match RequiredText(security, CredentialId)
    case Err(e) => Err(e)
    case Ok(id) =>
      match Credential(doc, id)
      case Err(e) => Err(e)
      case Ok(credential) =>
        match RequiredText(credential, PrincipalId)
        case Err(e) => Err(e)
        case Ok(principal) =>
          match TextOr(security, TlsServerName, DefaultServerName)
          case Err(e) => Err(e)
          case Ok(name) =>
            match PathsOf(outbound)
            case Err(e) => Err(e)
            case Ok(nodes) =>
              match ProjectPaths(nodes)
              case Err(e) => Err(e)
              case Ok(paths) =>
                match ProjectAdvanced(doc, outbound, security, defaults)
                case Err(e) => Err(e)
                case Ok(advanced) => Ok(EditorProjection(level, Some(target), paths, advanced, id, principal, name))
  }

  // ----- the patch -----

  /** `set_authoritative_managed` */
  function WithManaged(f: Fields, k: Key, legacy: Key, id: Text): Fields {
    Set(Remove(f, legacy), k, ManagedSource(id))
  }

  function PatchedCredential(f: Fields, p: EditorProjection): Fields {
    WithManaged(Set(Set(f, CredentialId, Str(p.credentialId)), PrincipalId, Str(p.principalId)), Secret, SecretFile, CredentialMaterial)
  }

  function PatchedSecurity(f: Fields, p: EditorProjection): Fields {
    var g := Set(Set(f, CredentialId, Str(p.credentialId)), TlsServerName, Str(p.serverName));
    WithManaged(WithManaged(g, PinnedCertificate, PinnedCertificateFile, CertificateMaterial), TransportSecret, TransportSecretFile, TransportMaterial)
  }

  function WithChild(f: Fields, k: Key, child: Fields): Fields {
    Set(f, k, Table(child))
  }

  /** Removes a field of a child table, when there is such a table. */
  function WithoutIn(f: Fields, child: Key, k: Key): Fields {
    if ChildOf(f, child).Some? then WithChild(f, child, Remove(ChildOf(f, child).value, k)) else f
  }

  function AdvancedOutbound(f: Fields, advanced: Option<Advanced>): Result<Fields, EditError> {
    match advanced
    case None => Ok(WithoutIn(WithoutIn(Remove(Remove(f, ProbeInterval), ProbeTimeout), Performance, ReinjectionBudget), Security, AuthFreshness))
    case Some(a) =>
      var g := Set(Set(f, ProbeInterval, NumberNode(a.probeInterval)), ProbeTimeout, NumberNode(a.probeTimeout));
      match EnsuredChild(g, Performance)
      case Err(e) => Err(e)
      case Ok(performance) =>
        var h := WithChild(g, Performance, Set(performance, ReinjectionBudget, Int(a.reinjectionBudget)));
        match EnsuredChild(h, Security)
        case Err(e) => Err(e)
        case Ok(security) => Ok(WithChild(h, Security, Set(security, AuthFreshness, NumberNode(a.authFreshness))))
  }

  function PatchedResources(f: Fields, a: Advanced): Fields {
    Set(Set(Set(Set(f, TcpHeartbeatInterval, NumberNode(a.tcpInterval)), TcpHeartbeatTimeout, NumberNode(a.tcpTimeout)),
            QuicKeepAlive, NumberNode(a.quicKeepAlive)), QuicIdleTimeout, NumberNode(a.quicIdle))
  }

  function StrippedResources(f: Fields): Fields {
    Remove(Remove(Remove(Remove(f, TcpHeartbeatInterval), TcpHeartbeatTimeout), QuicKeepAlive), QuicIdleTimeout)
  }

  function AdvancedDocument(doc: Fields, advanced: Option<Advanced>): Result<Fields, EditError> {
    match advanced
    case None =>
      var d := WithoutIn(doc, Session, RetentionTimeout);
      Ok(if ChildOf(d, Resources).Some? then WithChild(d, Resources, StrippedResources(ChildOf(d, Resources).value)) else d)
    case Some(a) =>
      match EnsuredChild(doc, Session)
      case Err(e) => Err(e)
      case Ok(session) =>
        var d := WithChild(doc, Session, Set(session, RetentionTimeout, NumberNode(a.retention)));
        match EnsuredChild(d, Resources)
        case Err(e) => Err(e)
        case Ok(resources) => Ok(WithChild(d, Resources, PatchedResources(resources, a)))
  }

  function PatchedTarget(doc: Fields, target: Option<Option<Text>>): Result<Fields, EditError> {
    match target
    case None => Ok(doc)
    case Some(None) =>
      if !Has(doc, Routing) then Ok(doc)
      else if ChildOf(doc, Routing).None? then Err(NotATable(Routing))
      else Ok(WithChild(doc, Routing, Remove(ChildOf(doc, Routing).value, TargetResolution)))
    case Some(Some(mode)) =>
      match EnsuredChild(doc, Routing)
      case Err(e) => Err(e)
      case Ok(routing) => Ok(WithChild(doc, Routing, Set(routing, TargetResolution, Str(mode))))
  }

  function PatchedLevel(doc: Fields, level: Text): Result<Fields, EditError> {
    match EnsuredChild(doc, Logging)
    case Err(e) => Err(e)
    case Ok(logging) => Ok(WithChild(doc, Logging, Set(logging, Level, Str(level))))
  }

  function PatchedOutbound(outbound: Fields, security: Fields, p: EditorProjection): Result<Fields, EditError> {
    match PathsOf(outbound)
    case Err(e) => Err(e)
    case Ok(existing) =>
      var f := Set(outbound, Paths, Arr(FromSeq(PatchedPaths(existing, p.paths))));
      AdvancedOutbound(WithChild(f, Security, PatchedSecurity(security, p)), p.advanced)
  }

  /** The document with its credential and its outbound replaced. */
  function Replaced(doc: Fields, credentials: Nodes, id: Text, credential: Fields, outbounds: Nodes, outbound: Fields): Fields
    requires CountOf(credentials, CredentialId, id) > 0 && CountOf(outbounds, Protocol, Mpp) > 0
  {
    Set(Set(doc, Credentials, Tables(WithFirst(credentials, CredentialId, id, credential))),
        Outbounds, Tables(WithFirst(outbounds, Protocol, Mpp, outbound)))
  }

  /** The rest of the document, after the outbound. */
  function PatchedRest(doc: Fields, p: EditorProjection): Result<Fields, EditError> {
    match AdvancedDocument(doc, p.advanced)
    case Err(e) => Err(e)
    case Ok(d) =>
      match PatchedTarget(d, p.target)
      case Err(e) => Err(e)
      case Ok(r) => PatchedLevel(r, p.level)
  }

  predicate ValidProjection(p: EditorProjection) {
    ValidLevel(p.level) && (p.target.Some? && p.target.value.Some? ==> ValidMode(p.target.value.value))
  }

  /** `patch_editor` on a migrated document. */
  function Patch(doc: Fields, p: EditorProjection): Result<Fields, EditError> {
    if !ValidLevel(p.level) then Err(BadLevel)
    else if !ValidProjection(p) then Err(BadMode)
    else match MppOutbound(doc)
      case Err(e) => Err(e)
      case Ok(outbound) =>
        match SecurityOf(outbound)
        case Err(e) => Err(e)
        case Ok(security) =>
          match RequiredText(security, CredentialId)
          case Err(e) => Err(e)
          case Ok(id) =>
            match Credential(doc, id)
            case Err(e) => Err(e)
            case Ok(credential) =>
              match PatchedOutbound(outbound, security, p)
              case Err(e) => Err(e)
              case Ok(f) =>
                PatchedRest(Replaced(doc, TablesOf(doc, Credentials).value, id, PatchedCredential(credential, p), TablesOf(doc, Outbounds).value, f), p)
  }
}
