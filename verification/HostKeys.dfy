/**
 Host-key trust on first use (internal/sshx/hostkey.go, internal/sshx/webauthn_signer.go,
 internal/sshx/transport.go, internal/store/endpoints.go) as atomic steps: SQL statements,
 key exchanges, approvals and the connection's own checks interleave freely over any
 number of endpoints and connections.
 */
module HostKeys {
  import opened Common

  datatype Address = Address(host: string, port: int)

  /** A raw wire public key. */
  type Key = string

  /** SHA-256 fingerprints, taken as injective. */
  datatype Fingerprint = Sha256(of: Key)

  /** A stored pin; `key` is none for a fingerprint-only pin. */
  datatype Pin = Pin(fp: Fingerprint, key: Option<Key>)

  predicate PinOk(p: Pin) { p.key.Some? ==> p.fp == Sha256(p.key.value) }

  /** Full-key pins compare keys, fingerprint-only pins compare fingerprints. */
  predicate Matches(p: Pin, k: Key) {
    if p.key.Some? then p.key.value == k else p.fp == Sha256(k)
  }

  /**
   An endpoint row. History: the address the pin was observed or entered for, how often a
   pin was cleared or the endpoint moved, and the fingerprint pinned in each such period.
   */
  datatype Row = Row(addr: Address, pin: Option<Pin>, pinnedFor: Address, period: nat, pins: map<nat, Fingerprint>)

  datatype KeyStatus = Unseen | New | Known

  /** HostKeyState. */
  datatype HostState = HostState(status: KeyStatus, observed: Key, pinned: bool)

  /** hostKeyCallback: the verdict and the new state; `pin` is the lookup from before the dial. */
  function Verify(hs: HostState, pin: Option<Pin>, key: Key): (HostState, bool) {
    if hs.status != Unseen then (hs, hs.observed == key)
    else if pin.None? then (hs.(status := New, observed := key), true)
    else if Matches(pin.value, key) then (hs.(status := Known, observed := key), true)
    else (hs, false)
  }

  /** withHostKeyContext: the key the coming approval must also pin. */
  function Provisional(hs: HostState): Option<Key> {
    if hs.status == New && !hs.pinned then Some(hs.observed) else None
  }

  /** A signer's Sign call: asking the human, then the two statements of PinHostKey, then MarkPinned. */
  datatype SignPc = NoSign | Asking(shown: Option<Key>) | Pinning(key: Key) | Checking(doubt: Key) | Marking

  datatype Phase = Dialing | Handshaking | Returned | Aborted

  /** History: the pin this connection's approval secured, and in which period. */
  datatype Proof = Proof(fp: Fingerprint, period: nat)

  datatype Conn = Conn(endpoint: string, dial: Address, phase: Phase, pin: Option<Pin>, hs: HostState,
                       sign: SignPc, proof: Option<Proof>)

  datatype State = State(rows: map<string, Row>, conns: map<string, Conn>)

  function Initial(): State { State(map[], map[]) }

  datatype RowStep = Insert(at: Address) | Move(to: Address) | Clear | Enter(where: Address, given: Pin)

  datatype ConnStep =
    | Lookup | KeyExchange(key: Key)
    | SignStart | SignRefused | SignApproved
    | PinUpdate | PinSelect | PinFailed | MarkPinned
    | Establish | Drop

  datatype Step =
    | R(e: string, r: RowStep) | Dial(c: string, endpoint: string, addr: Address) | C(c: string, k: ConnStep)

  // ---------------------------------------------------------------- SQL statements

  function Fresh(addr: Address): Row { Row(addr, None, addr, 0, map[]) }

  /** UPDATE endpoints: a different address clears the pin in the same statement. */
  function MoveRow(r: Row, to: Address): Row {
    if r.addr == to then r else r.(addr := to, pin := None, period := r.period + 1)
  }

  function ClearRow(r: Row): Row {
    if r.pin.None? then r else r.(pin := None, period := r.period + 1)
  }

  /** The compare-and-set hits: no pin, and still the address the key was observed at. */
  predicate Writable(r: Row, addr: Address) { r.pin.None? && r.addr == addr }

  function PinRow(r: Row, addr: Address, p: Pin): Row {
    r.(pin := Some(p), pinnedFor := addr, pins := r.pins[r.period := p.fp])
  }

  /** What the second statement of PinHostKey accepts after the first changed nothing. */
  predicate SamePin(r: Row, addr: Address, fp: Fingerprint) {
    r.addr == addr && r.pin.Some? && r.pin.value.fp == fp
  }

  predicate CanRow(s: State, e: string, r: RowStep) {
    match r
    case Insert(_) => e !in s.rows
    case Enter(_, p) => e in s.rows && PinOk(p)
    case _ => e in s.rows
  }

  function DoRow(s: State, e: string, r: RowStep): Row
    requires CanRow(s, e, r)
  {
    match r
    case Insert(addr) => Fresh(addr)
    case Move(to) => MoveRow(s.rows[e], to)
    case Clear => ClearRow(s.rows[e])
    case Enter(addr, p) => if Writable(s.rows[e], addr) then PinRow(s.rows[e], addr, p) else s.rows[e]
  }

  // ---------------------------------------------------------------- connections

  function NewConn(endpoint: string, addr: Address): Conn {
    Conn(endpoint, addr, Dialing, None, HostState(Unseen, "", false), NoSign, None)
  }

  /** Key exchange comes before authentication: nothing is signed and nothing is established on an unseen key. */
  predicate CanConn(x: Conn, k: ConnStep) {
    match k
    case Lookup => x.phase == Dialing
    case KeyExchange(_) => x.phase == Handshaking || x.phase == Returned
    case SignStart => x.phase == Handshaking && x.sign == NoSign && x.hs.status != Unseen
    case SignRefused => x.sign.Asking?
    case SignApproved => x.sign.Asking?
    case PinUpdate => x.sign.Pinning?
    case PinSelect => x.sign.Checking?
    case PinFailed => x.sign.Pinning? || x.sign.Checking?
    case MarkPinned => x.sign == Marking
    case Establish => x.phase == Handshaking && x.sign == NoSign && x.hs.status != Unseen
    case Drop => true
  }

  /** The connection's half of a step; `row` is its endpoint's row, if it exists. */
  function DoConn(x: Conn, k: ConnStep, row: Option<Row>): Conn
    requires CanConn(x, k)
  {
    match k
    case Lookup => x.(phase := Handshaking, pin := if row.Some? then row.value.pin else None)
    case KeyExchange(key) =>
      var (hs, ok) := Verify(x.hs, x.pin, key);
      if ok then x.(hs := hs) else x.(phase := Aborted)
    case SignStart => x.(sign := Asking(Provisional(x.hs)))
    case SignRefused => x.(sign := NoSign)
    case SignApproved => x.(sign := if x.sign.shown.Some? then Pinning(x.sign.shown.value) else NoSign)
    case PinUpdate =>
      if row.Some? && Writable(row.value, x.dial)
      then x.(sign := Marking, proof := Some(Proof(Sha256(x.sign.key), row.value.period)))
      else x.(sign := Checking(x.sign.key))
    case PinSelect =>
      if row.Some? && SamePin(row.value, x.dial, Sha256(x.sign.doubt))
      then x.(sign := Marking, proof := Some(Proof(Sha256(x.sign.doubt), row.value.period)))
      else x.(sign := NoSign)
    case PinFailed => x.(sign := NoSign)
    case MarkPinned => x.(sign := NoSign, hs := x.hs.(pinned := true))
    case Establish => x.(phase := if x.hs.status == New && !x.hs.pinned then Aborted else Returned)
    case Drop => x.(phase := Aborted)
  }

  /** Only a hit of the compare-and-set writes the endpoint's row. */
  predicate Writes(x: Conn, k: ConnStep, row: Option<Row>) {
    k == PinUpdate && x.sign.Pinning? && row.Some? && Writable(row.value, x.dial)
  }

  function RowOf(s: State, e: string): Option<Row> { if e in s.rows then Some(s.rows[e]) else None }

  predicate Enabled(s: State, step: Step) {
    match step
    case R(e, r) => CanRow(s, e, r)
    case Dial(c, _, _) => c !in s.conns
    case C(c, k) => c in s.conns && CanConn(s.conns[c], k)
  }

  function StepConn(s: State, c: string, k: ConnStep): State
    requires Enabled(s, C(c, k))
  {
    var x := s.conns[c];
    var row := RowOf(s, x.endpoint);
    var t := s.(conns := s.conns[c := DoConn(x, k, row)]);
    if Writes(x, k, row)
    then t.(rows := s.rows[x.endpoint := PinRow(row.value, x.dial, Pin(Sha256(x.sign.key), Some(x.sign.key)))])
    else t
  }

  function Apply(s: State, step: Step): State
    requires Enabled(s, step)
  {
    match step
    case R(e, r) => s.(rows := s.rows[e := DoRow(s, e, r)])
    case Dial(c, endpoint, addr) => s.(conns := s.conns[c := NewConn(endpoint, addr)])
    case C(c, k) => StepConn(s, c, k)
  }

  ghost predicate Run(s: State, steps: seq<Step>, t: State)
    decreases |steps|
  {
    if steps == [] then s == t
    else Enabled(s, steps[0]) && Run(Apply(s, steps[0]), steps[1..], t)
  }
}
