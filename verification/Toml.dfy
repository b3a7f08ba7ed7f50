/** TOML trees without decoration, as `src/android.rs` edits them. */
module Toml {
  import opened Outcomes

  /** Keys are numbered: each key the editor names has its own number below, any other key some other number. */
  type Key = nat

  const Secret: Key := 0
  const SecretFile: Key := 1
  const PinnedCertificate: Key := 2
  const PinnedCertificateFile: Key := 3
  const TransportSecret: Key := 4
  const TransportSecretFile: Key := 5
  const From: Key := 6
  const Id: Key := 7
  const Path: Key := 8
  const Encoded: Key := 9
  const Routing: Key := 10
  const Rules: Key := 11
  const Action: Key := 12
  const Decision: Key := 13
  const Outbound: Key := 14
  const Balancer: Key := 15
  const DnsPolicy: Key := 16
  const InitialDemand: Key := 17
  const TargetResolution: Key := 18
  const Outbounds: Key := 19
  const Protocol: Key := 20
  const Security: Key := 21
  const Credentials: Key := 22
  const CredentialId: Key := 23
  const PrincipalId: Key := 24
  const TlsServerName: Key := 25
  const Paths: Key := 26
  const Name: Key := 27
  const Endpoint: Key := 28
  const Logging: Key := 29
  const Level: Key := 30
  const ProbeInterval: Key := 31
  const ProbeTimeout: Key := 32
  const Performance: Key := 33
  const ReinjectionBudget: Key := 34
  const AuthFreshness: Key := 35
  const Session: Key := 36
  const RetentionTimeout: Key := 37
  const Resources: Key := 38
  const TcpHeartbeatInterval: Key := 39
  const TcpHeartbeatTimeout: Key := 40
  const QuicKeepAlive: Key := 41
  const QuicIdleTimeout: Key := 42

  /** Strings are numbered in the same way, by the strings the editor compares with. */
  type Text = nat

  const ManagedText: Text := 0
  const FileText: Text := 1
  const Base64Text: Text := 2
  const CredentialMaterial: Text := 3
  const CertificateMaterial: Text := 4
  const TransportMaterial: Text := 5
  const LegacyCredential: Text := 6
  const LegacyCertificate: Text := 7
  const LegacyTransport: Text := 8
  const OutboundText: Text := 9
  const BalancerText: Text := 10
  const RejectText: Text := 11
  const DropText: Text := 12
  const AllowText: Text := 13
  const Mpp: Text := 14
  const AsIs: Text := 15
  const RouteOnly: Text := 16
  const FullResolve: Text := 17
  const Off: Text := 18
  const ErrorLevel: Text := 19
  const Warn: Text := 20
  const Info: Text := 21
  const Debug: Text := 22
  const DefaultServerName: Text := 23

  /** Values, tables and arrays of tables; `Scalar` is a boolean or a date. */
  datatype Node =
    | Str(text: Text) | Int(integer: int) | Float(number: real) | Scalar(scalar: nat)
    | Arr(items: Nodes) | Inline(fields: Fields)
    | Table(fields: Fields) | Tables(items: Nodes)

  datatype Nodes = Nil | Cons(head: Node, tail: Nodes)

  /** Fields in document order; a document never repeats a key within one table. */
  datatype Fields = End | Field(key: Key, value: Node, rest: Fields)

  function Get(f: Fields, k: Key): Option<Node> {
    match f
    case End => None
    case Field(key, value, rest) => if key == k then Some(value) else Get(rest, k)
  }

  predicate Has(f: Fields, k: Key) {
    Get(f, k).Some?
  }

  /** Replaces the value in place, or appends the field. */
  function Set(f: Fields, k: Key, v: Node): (r: Fields)
    ensures Get(r, k) == Some(v)
    ensures forall other | other != k :: Get(r, other) == Get(f, other)
  {
    match f
    case End => Field(k, v, End)
    case Field(key, value, rest) => if key == k then Field(k, v, rest) else Field(key, value, Set(rest, k, v))
  }

  function Remove(f: Fields, k: Key): (r: Fields)
    ensures Get(r, k) == None
    ensures forall other | other != k :: Get(r, other) == Get(f, other)
  {
    match f
    case End => End
    case Field(key, value, rest) => if key == k then Remove(rest, k) else Field(key, value, Remove(rest, k))
  }

  lemma {:induction false} SetSame(f: Fields, k: Key)
    requires Has(f, k)
    ensures Set(f, k, Get(f, k).value) == f
  {
    if f.key != k {
      SetSame(f.rest, k);
    }
  }

  function TextOf(n: Option<Node>): Option<Text> {
    if n.Some? && n.value.Str? then Some(n.value.text) else None
  }

  // ----- material sources -----

  function ManagedSource(id: Text): Node {
    Inline(Field(From, Str(ManagedText), Field(Id, Str(id), End)))
  }

  function Base64Source(encoded: Text): Node {
    Inline(Field(From, Str(Base64Text), Field(Encoded, Str(encoded), End)))
  }

  predicate IsManaged(n: Node, id: Text) {
    n.Inline? && TextOf(Get(n.fields, From)) == Some(ManagedText) && TextOf(Get(n.fields, Id)) == Some(id)
  }

  predicate LegacyMatches(n: Node, token: Text) {
    match n
    case Str(text) => text == token
    case Inline(f) => TextOf(Get(f, Path)) == Some(token) && (Get(f, From).None? || !Get(f, From).value.Str? || Get(f, From).value.text == FileText)
    case _ => false
  }

  // ----- how often a managed reference occurs -----

  function ManagedCount(n: Node, id: Text): nat {
    (if IsManaged(n, id) then 1 else 0) +
    match n
    case Arr(items) => ManagedCountIn(items, id)
    case Inline(f) => ManagedCountFields(f, id)
    case Table(f) => ManagedCountFields(f, id)
    case Tables(items) => ManagedCountIn(items, id)
    case _ => 0
  }

  function ManagedCountIn(items: Nodes, id: Text): nat {
    match items
    case Nil => 0
    case Cons(head, tail) => ManagedCount(head, id) + ManagedCountIn(tail, id)
  }

  function ManagedCountFields(f: Fields, id: Text): nat {
    match f
    case End => 0
    case Field(_, value, rest) => ManagedCount(value, id) + ManagedCountFields(rest, id)
  }

  lemma {:induction false} CountedField(f: Fields, k: Key, id: Text)
    requires Has(f, k)
    ensures ManagedCountFields(f, id) >= ManagedCount(Get(f, k).value, id)
  {
    if f.key != k {
      CountedField(f.rest, k, id);
    }
  }
}
