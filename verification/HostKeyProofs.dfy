/** What a returned connection and a stored pin stand for, in every run. */
module HostKeyProofs {
  import opened Common
  import opened HostKeys

  /** A pin belongs to the row's address and is on record for the current period. */
  ghost predicate RowOk(r: Row) {
    && (r.pin.Some? ==> PinOk(r.pin.value) && r.pinnedFor == r.addr)
    && (r.pin.Some? ==> r.period in r.pins && r.pins[r.period] == r.pin.value.fp)
    && (forall p :: p in r.pins ==> p <= r.period)
    && (r.period in r.pins ==> r.pin.Some?)
  }

  predicate InSign(x: Conn, k: Key) { x.hs.status == New && x.hs.observed == k && !x.hs.pinned }

  ghost predicate ConnOk(x: Conn) {
    && (x.phase == Dialing ==> x.hs.status == Unseen && x.sign == NoSign && x.proof.None?)
    && (x.phase == Returned ==> x.hs.status == Known || (x.hs.status == New && x.hs.pinned))
    && (x.hs.status == Known ==> x.pin.Some? && Matches(x.pin.value, x.hs.observed) && !x.hs.pinned)
    && (x.hs.status == New ==> x.pin.None?)
    && (x.hs.status == Unseen ==> x.sign == NoSign && !x.hs.pinned)
    && (x.pin.Some? ==> PinOk(x.pin.value))
    && (x.hs.pinned ==> x.proof.Some?)
    && (x.proof.Some? ==> x.hs.status == New && x.proof.value.fp == Sha256(x.hs.observed))
    && (match x.sign
        case NoSign => true
        case Asking(p) => x.hs.status != Unseen && p == Provisional(x.hs)
        case Pinning(k) => InSign(x, k)
        case Checking(k) => InSign(x, k)
        case Marking => x.hs.status == New && x.proof.Some?)
  }

  /** The pin a connection secured is the one on record for that period of its endpoint. */
  ghost predicate ProofOk(x: Conn, rows: map<string, Row>) {
    x.proof.Some? ==>
      && x.endpoint in rows
      && x.proof.value.period in rows[x.endpoint].pins
      && rows[x.endpoint].pins[x.proof.value.period] == x.proof.value.fp
  }

  ghost predicate Inv(s: State) {
    && (forall e :: e in s.rows ==> RowOk(s.rows[e]))
    && (forall c :: c in s.conns ==> ConnOk(s.conns[c]))
    && (forall c :: c in s.conns ==> ProofOk(s.conns[c], s.rows))
  }

  /** Periods count up and what was pinned in a period stays on record. */
  ghost predicate RowLater(a: Row, b: Row) {
    && a.period <= b.period
    && (forall p :: p in a.pins ==> p in b.pins && b.pins[p] == a.pins[p])
    && (a.period == b.period && a.pin.Some? ==> b.pin == a.pin && b.addr == a.addr)
  }

  lemma PinRowLater(r: Row, addr: Address, p: Pin)
    requires RowOk(r) && Writable(r, addr) && PinOk(p)
    ensures RowOk(PinRow(r, addr, p)) && RowLater(r, PinRow(r, addr, p))
  {
  }

  lemma RowStepLater(s: State, e: string, r: RowStep)
    requires CanRow(s, e, r) && (e in s.rows ==> RowOk(s.rows[e]))
    ensures RowOk(DoRow(s, e, r))
    ensures e in s.rows ==> RowLater(s.rows[e], DoRow(s, e, r))
  {
    match r
    case Insert(addr) =>
    case Move(to) =>
    case Clear =>
    case Enter(addr, p) =>
      if Writable(s.rows[e], addr) { PinRowLater(s.rows[e], addr, p); }
  }

  lemma ProofStable(x: Conn, rows: map<string, Row>, e: string, r: Row)
    requires ProofOk(x, rows) && (e in rows ==> RowLater(rows[e], r))
    ensures ProofOk(x, rows[e := r])
  {
  }

  /** What a connection has seen, secured and decided stays. */
  ghost predicate ConnLater(a: Conn, b: Conn) {
    && a.endpoint == b.endpoint && a.dial == b.dial
    && (a.hs.status != Unseen ==> b.hs.status == a.hs.status && b.hs.observed == a.hs.observed && b.pin == a.pin)
    && (a.proof.Some? ==> b.proof.Some? && b.proof.value.fp == a.proof.value.fp)
    && (a.phase == Aborted ==> b.phase == Aborted)
  }

  lemma {:induction false} ConnStepOk(x: Conn, k: ConnStep, row: Option<Row>)
    requires ConnOk(x) && CanConn(x, k) && (row.Some? ==> RowOk(row.value))
    ensures ConnOk(DoConn(x, k, row)) && ConnLater(x, DoConn(x, k, row))
  {
    match k
    case Lookup =>
    case KeyExchange(key) =>
    case SignStart =>
    case SignRefused =>
    case SignApproved =>
    case PinUpdate =>
    case PinSelect =>
    case PinFailed =>
    case MarkPinned =>
    case Establish =>
    case Drop =>
  }

  /** The row a connection step leaves behind. */
  function RowAfter(x: Conn, k: ConnStep, row: Row): Row {
    if Writes(x, k, Some(row)) then PinRow(row, x.dial, Pin(Sha256(x.sign.key), Some(x.sign.key))) else row
  }

  lemma RowAfterOk(x: Conn, k: ConnStep, row: Row)
    requires RowOk(row)
    ensures RowOk(RowAfter(x, k, row)) && RowLater(row, RowAfter(x, k, row))
  {
    if Writes(x, k, Some(row)) { PinRowLater(row, x.dial, Pin(Sha256(x.sign.key), Some(x.sign.key))); }
  }

  /** A step that secures a pin finds it on record. */
  lemma NewProofOk(s: State, c: string, k: ConnStep)
    requires Inv(s) && Enabled(s, C(c, k))
    ensures ProofOk(StepConn(s, c, k).conns[c], StepConn(s, c, k).rows)
  {
    var x := s.conns[c];
    assert ConnOk(x) && ProofOk(x, s.rows);
    if x.endpoint in s.rows {
      assert RowOk(s.rows[x.endpoint]);
      RowAfterOk(x, k, s.rows[x.endpoint]);
      match k
      case PinUpdate =>
      case PinSelect =>
      case _ =>
    }
  }

  lemma ConnKeeps(s: State, c: string, k: ConnStep)
    requires Inv(s) && Enabled(s, C(c, k))
    ensures Inv(StepConn(s, c, k))
  {
    var x, t := s.conns[c], StepConn(s, c, k);
    var row := RowOf(s, x.endpoint);
    ConnStepOk(x, k, row);
    if x.endpoint in s.rows { RowAfterOk(x, k, s.rows[x.endpoint]); }
    forall d | d in t.conns ensures ProofOk(t.conns[d], t.rows) {
      if d == c { NewProofOk(s, c, k); }
      else if Writes(x, k, row) { ProofStable(s.conns[d], s.rows, x.endpoint, t.rows[x.endpoint]); }
    }
  }

  lemma RowKeeps(s: State, e: string, r: RowStep)
    requires Inv(s) && CanRow(s, e, r)
    ensures Inv(Apply(s, R(e, r)))
  {
    RowStepLater(s, e, r);
    var t := Apply(s, R(e, r));
    forall c | c in t.conns ensures ProofOk(t.conns[c], t.rows) {
      ProofStable(s.conns[c], s.rows, e, t.rows[e]);
    }
  }

  lemma {:induction false} StepKeeps(s: State, step: Step)
    requires Inv(s) && Enabled(s, step)
    ensures Inv(Apply(s, step))
  {
    match step
    case R(e, r) => RowKeeps(s, e, r);
    case Dial(c, endpoint, addr) =>
    case C(c, k) => ConnKeeps(s, c, k);
  }

  ghost predicate Later(s: State, t: State) {
    && (forall e :: e in s.rows ==> e in t.rows && RowLater(s.rows[e], t.rows[e]))
    && (forall c :: c in s.conns ==> c in t.conns && ConnLater(s.conns[c], t.conns[c]))
  }

  lemma {:induction false} StepLater(s: State, step: Step)
    requires Inv(s) && Enabled(s, step)
    ensures Later(s, Apply(s, step))
  {
    match step
    case R(e, r) => RowStepLater(s, e, r);
    case Dial(c, endpoint, addr) =>
    case C(c, k) =>
      var x := s.conns[c];
      ConnStepOk(x, k, RowOf(s, x.endpoint));
      if x.endpoint in s.rows { RowAfterOk(x, k, s.rows[x.endpoint]); }
  }

  lemma RowTrans(a: Row, b: Row, c: Row)
    requires RowLater(a, b) && RowLater(b, c)
    ensures RowLater(a, c)
  {
  }

  lemma LaterTrans(s: State, u: State, t: State)
    requires Later(s, u) && Later(u, t)
    ensures Later(s, t)
  {
    forall e | e in s.rows ensures e in t.rows && RowLater(s.rows[e], t.rows[e]) {
      RowTrans(s.rows[e], u.rows[e], t.rows[e]);
    }
  }

  lemma {:induction false} RunKeeps(s: State, steps: seq<Step>, t: State)
    requires Inv(s) && Run(s, steps, t)
    ensures Inv(t) && Later(s, t)
    decreases |steps|
  {
    if steps != [] {
      StepKeeps(s, steps[0]);
      StepLater(s, steps[0]);
      RunKeeps(Apply(s, steps[0]), steps[1..], t);
      LaterTrans(s, Apply(s, steps[0]), t);
    }
  }

  // ---------------------------------------------------------------- theorems

  /**
   A connection is returned only when the key it observed matched the pin it had looked up,
   or was itself pinned by this connection's own approval; the key pinned is the key the
   human was shown, and it is on record for the endpoint.
   */
  lemma ReturnedIsTrusted(steps: seq<Step>, s: State, c: string)
    requires Run(Initial(), steps, s) && c in s.conns && s.conns[c].phase == Returned
    ensures
      var x := s.conns[c];
      || (x.hs.status == Known && x.pin.Some? && x.pin.value.fp == Sha256(x.hs.observed)
          && (x.pin.value.key.Some? ==> x.pin.value.key.value == x.hs.observed))
      || (x.hs.status == New && x.pin.None? && x.proof.Some? && x.proof.value.fp == Sha256(x.hs.observed)
          && x.endpoint in s.rows && x.proof.value.period in s.rows[x.endpoint].pins
          && s.rows[x.endpoint].pins[x.proof.value.period] == Sha256(x.hs.observed))
  {
    RunKeeps(Initial(), steps, s);
    assert ConnOk(s.conns[c]) && ProofOk(s.conns[c], s.rows);
  }

  /** What is about to be pinned is what the approval showed, and that is the key this connection observed. */
  lemma PinsWhatWasShown(steps: seq<Step>, s: State, c: string, k: Key)
    requires Run(Initial(), steps, s) && c in s.conns
    requires s.conns[c].sign == Asking(Some(k)) || s.conns[c].sign == Pinning(k) || s.conns[c].sign == Checking(k)
    ensures s.conns[c].hs.observed == k && s.conns[c].hs.status == New && !s.conns[c].hs.pinned
  {
    RunKeeps(Initial(), steps, s);
    assert ConnOk(s.conns[c]);
  }

  /** A stored pin always belongs to the endpoint's current address. */
  lemma PinFollowsAddress(steps: seq<Step>, s: State, e: string)
    requires Run(Initial(), steps, s) && e in s.rows && s.rows[e].pin.Some?
    ensures s.rows[e].pinnedFor == s.rows[e].addr
  {
    RunKeeps(Initial(), steps, s);
    assert RowOk(s.rows[e]);
  }

  /**
   Two connections to one endpoint whose approvals each pinned a key, with different
   fingerprints, did so in different periods: a clear or a move lies between them.
   */
  lemma DifferentKeysNeedAReset(steps: seq<Step>, s: State, c: string, d: string)
    requires Run(Initial(), steps, s) && c in s.conns && d in s.conns
    requires s.conns[c].endpoint == s.conns[d].endpoint
    requires s.conns[c].proof.Some? && s.conns[d].proof.Some?
    requires s.conns[c].proof.value.fp != s.conns[d].proof.value.fp
    ensures s.conns[c].proof.value.period != s.conns[d].proof.value.period
  {
    RunKeeps(Initial(), steps, s);
    assert ProofOk(s.conns[c], s.rows) && ProofOk(s.conns[d], s.rows);
  }

  /** A step ends the period of an endpoint: a clear of an existing pin or a real move. */
  predicate Resets(s: State, step: Step, e: string) {
    step.R? && step.e == e && e in s.rows &&
    ((step.r == Clear && s.rows[e].pin.Some?) || (step.r.Move? && step.r.to != s.rows[e].addr))
  }

  ghost predicate NoReset(s: State, steps: seq<Step>, e: string)
    decreases |steps|
  {
    steps == [] || (Enabled(s, steps[0]) && !Resets(s, steps[0], e) && NoReset(Apply(s, steps[0]), steps[1..], e))
  }

  lemma {:induction false} PeriodStays(s: State, steps: seq<Step>, t: State, e: string)
    requires Inv(s) && Run(s, steps, t) && NoReset(s, steps, e) && e in s.rows
    ensures e in t.rows && t.rows[e].period == s.rows[e].period
    ensures s.rows[e].pin.Some? ==> t.rows[e].pin == s.rows[e].pin
    decreases |steps|
  {
    if steps != [] {
      var u := Apply(s, steps[0]);
      StepKeeps(s, steps[0]);
      PeriodStep(s, steps[0], e);
      StepLater(s, steps[0]);
      PeriodStays(u, steps[1..], t, e);
    }
  }

  /** Without a clear or a move the period stands still, so a pin, once there, is the pin. */
  lemma PeriodStands(before: seq<Step>, s: State, steps: seq<Step>, t: State, e: string)
    requires Run(Initial(), before, s) && Run(s, steps, t) && NoReset(s, steps, e) && e in s.rows
    ensures e in t.rows && t.rows[e].period == s.rows[e].period
    ensures s.rows[e].pin.Some? ==> t.rows[e].pin == s.rows[e].pin
  {
    RunKeeps(Initial(), before, s);
    PeriodStays(s, steps, t, e);
  }

  lemma PeriodStep(s: State, step: Step, e: string)
    requires Enabled(s, step) && !Resets(s, step, e) && e in s.rows
    ensures e in Apply(s, step).rows && Apply(s, step).rows[e].period == s.rows[e].period
  {
  }

  /** A pin the connection secured, if any, dates from the endpoint's current period. */
  ghost predicate Current(s: State, c: string, e: string) {
    c in s.conns && s.conns[c].proof.Some? && s.conns[c].endpoint == e ==>
      e in s.rows && s.conns[c].proof.value.period == s.rows[e].period
  }

  lemma {:induction false} CurrentStays(s: State, steps: seq<Step>, t: State, c: string, e: string)
    requires Inv(s) && Run(s, steps, t) && NoReset(s, steps, e) && e in s.rows && Current(s, c, e)
    ensures Current(t, c, e)
    decreases |steps|
  {
    if steps != [] {
      StepKeeps(s, steps[0]);
      PeriodStep(s, steps[0], e);
      CurrentStep(s, steps[0], c, e);
      CurrentStays(Apply(s, steps[0]), steps[1..], t, c, e);
    }
  }

  lemma CurrentStep(s: State, step: Step, c: string, e: string)
    requires Enabled(s, step) && !Resets(s, step, e) && e in s.rows && Current(s, c, e)
    ensures Current(Apply(s, step), c, e)
  {
    PeriodStep(s, step, e);
  }

  /**
   Once an endpoint is pinned, every connection whose approval then gets its key pinned,
   with no clear or move in between, carries exactly the pinned fingerprint.
   */
  lemma FirstPinWins(before: seq<Step>, s: State, steps: seq<Step>, t: State, c: string)
    requires Run(Initial(), before, s) && Run(s, steps, t) && c in t.conns && t.conns[c].proof.Some?
    requires c !in s.conns || s.conns[c].proof.None?
    requires t.conns[c].endpoint in s.rows && s.rows[t.conns[c].endpoint].pin.Some?
    requires NoReset(s, steps, t.conns[c].endpoint)
    ensures t.conns[c].proof.value.fp == s.rows[t.conns[c].endpoint].pin.value.fp
  {
    var e := t.conns[c].endpoint;
    RunKeeps(Initial(), before, s);
    RunKeeps(s, steps, t);
    PeriodStays(s, steps, t, e);
    CurrentStays(s, steps, t, c, e);
    assert ProofOk(t.conns[c], t.rows) && RowOk(t.rows[e]);
  }

  /** Rekeying: a connection's observed key never changes, and another key ends the connection. */
  lemma ObservedKeyIsFixed(before: seq<Step>, s: State, steps: seq<Step>, t: State, c: string)
    requires Run(Initial(), before, s) && Run(s, steps, t) && c in s.conns && s.conns[c].hs.status != Unseen
    ensures c in t.conns && t.conns[c].hs.observed == s.conns[c].hs.observed
    ensures forall k :: Enabled(t, C(c, KeyExchange(k))) && k != s.conns[c].hs.observed ==>
      StepConn(t, c, KeyExchange(k)).conns[c].phase == Aborted
  {
    RunKeeps(Initial(), before, s);
    RunKeeps(s, steps, t);
  }

  /** The same from before the endpoint exists: nothing can be secured for it until then. */
  lemma CurrentStepAny(s: State, step: Step, c: string, e: string)
    requires Inv(s) && Enabled(s, step) && !Resets(s, step, e) && Current(s, c, e)
    ensures Current(Apply(s, step), c, e)
  {
    if e in s.rows {
      CurrentStep(s, step, c, e);
    } else if c in s.conns {
      assert ProofOk(s.conns[c], s.rows);
    }
  }

  lemma {:induction false} CurrentRun(s: State, steps: seq<Step>, t: State, c: string, e: string)
    requires Inv(s) && Run(s, steps, t) && NoReset(s, steps, e) && Current(s, c, e)
    ensures Current(t, c, e)
    decreases |steps|
  {
    if steps != [] {
      StepKeeps(s, steps[0]);
      CurrentStepAny(s, steps[0], c, e);
      CurrentRun(Apply(s, steps[0]), steps[1..], t, c, e);
    }
  }

  /**
   Two first connections to one endpoint that were both returned on different keys, in any
   interleaving of their exchanges, approvals and pins: the run contains a clear of a pin of
   that endpoint or a move of it.
   */
  lemma TwoKeysMeanAReset(steps: seq<Step>, s: State, c: string, d: string, e: string)
    requires Run(Initial(), steps, s) && c in s.conns && d in s.conns
    requires s.conns[c].endpoint == e && s.conns[c].phase == Returned && s.conns[c].hs.status == New
    requires s.conns[d].endpoint == e && s.conns[d].phase == Returned && s.conns[d].hs.status == New
    requires s.conns[c].hs.observed != s.conns[d].hs.observed
    ensures !NoReset(Initial(), steps, e)
  {
    ReturnedIsTrusted(steps, s, c);
    ReturnedIsTrusted(steps, s, d);
    DifferentKeysNeedAReset(steps, s, c, d);
    if NoReset(Initial(), steps, e) {
      CurrentRun(Initial(), steps, s, c, e);
      CurrentRun(Initial(), steps, s, d, e);
    }
  }

  // ---------------------------------------------------------------- what each step does

  /** A clear forgets the pin, a move to another address too, and an entered pin needs a free row at its address. */
  lemma RowStepsSay(s: State, e: string, r: RowStep)
    requires Enabled(s, R(e, r)) && e in s.rows
    ensures
      var t := Apply(s, R(e, r)).rows;
      && t.Keys == s.rows.Keys && (forall d :: d in s.rows && d != e ==> t[d] == s.rows[d])
      && (r.Clear? ==> t[e].addr == s.rows[e].addr && t[e].pin.None?)
      && (r.Move? ==> t[e].addr == r.to && t[e].pin == if r.to == s.rows[e].addr then s.rows[e].pin else None)
      && (r.Enter? ==>
            && t[e].addr == s.rows[e].addr
            && t[e].pin == if s.rows[e].pin.None? && s.rows[e].addr == r.where then Some(r.given) else s.rows[e].pin)
  {
  }

  /** The first key exchange is measured by the pin looked up before the dial, every later one by the key seen first. */
  lemma KeyExchangeSays(s: State, c: string, k: Key)
    requires Enabled(s, C(c, KeyExchange(k)))
    ensures
      var x, y := s.conns[c], Apply(s, C(c, KeyExchange(k))).conns[c];
      && (x.hs.status != Unseen ==> y == if k == x.hs.observed then x else x.(phase := Aborted))
      && (x.hs.status == Unseen && x.pin.None? ==>
            y.phase == x.phase && y.hs == HostState(New, k, x.hs.pinned))
      && (x.hs.status == Unseen && x.pin.Some? ==>
            if (if x.pin.value.key.Some? then x.pin.value.key.value == k else x.pin.value.fp == Sha256(k))
            then y.phase == x.phase && y.hs == HostState(Known, k, x.hs.pinned)
            else y.phase == Aborted && y.hs == x.hs)
  {
  }

  /** An approval on a key that is new and unpinned goes on to pin exactly that key; on any other it pins nothing. */
  lemma ApprovalSays(steps: seq<Step>, s: State, c: string)
    requires Run(Initial(), steps, s) && Enabled(s, C(c, SignStart))
    ensures
      var x, t := s.conns[c], Apply(s, C(c, SignStart));
      && Enabled(t, C(c, SignApproved))
      && Apply(t, C(c, SignApproved)).conns[c].sign ==
           if x.hs.status == New && !x.hs.pinned then Pinning(x.hs.observed) else NoSign
  {
  }

  /** The pin statement writes exactly a free row at the address this connection dialled. */
  lemma PinSays(s: State, c: string)
    requires Enabled(s, C(c, PinUpdate))
    ensures
      var x, t := s.conns[c], Apply(s, C(c, PinUpdate));
      var hit := x.endpoint in s.rows && s.rows[x.endpoint].pin.None? && s.rows[x.endpoint].addr == x.dial;
      && t.conns[c].sign == (if hit then Marking else Checking(x.sign.key))
      && (if hit then x.endpoint in t.rows && t.rows[x.endpoint].pin == Some(Pin(Sha256(x.sign.key), Some(x.sign.key)))
          else t.rows == s.rows)
  {
  }

  /** The second statement accepts exactly this fingerprint at this address; it writes nothing. */
  lemma PinSelectSays(s: State, c: string)
    requires Enabled(s, C(c, PinSelect))
    ensures
      var x, t := s.conns[c], Apply(s, C(c, PinSelect));
      var same := x.endpoint in s.rows && s.rows[x.endpoint].addr == x.dial && s.rows[x.endpoint].pin.Some?
        && s.rows[x.endpoint].pin.value.fp == Sha256(x.sign.doubt);
      t.rows == s.rows && t.conns[c].sign == (if same then Marking else NoSign)
  {
  }

  /** Connect's last check: the connection is returned unless its key is new and no approval pinned it. */
  lemma EstablishSays(s: State, c: string)
    requires Enabled(s, C(c, Establish))
    ensures
      var x, y := s.conns[c], Apply(s, C(c, Establish)).conns[c];
      y.phase == if x.hs.status == New && !x.hs.pinned then Aborted else Returned
  {
  }

  /** The remaining steps of a connection: the lookup before the dial, the ends of a sign call, the drop. */
  lemma OtherStepsSay(s: State, c: string, k: ConnStep)
    requires Enabled(s, C(c, k))
    ensures
      var x, y := s.conns[c], Apply(s, C(c, k)).conns[c];
      && (k == Lookup ==>
            y.phase == Handshaking && y.pin == if x.endpoint in s.rows then s.rows[x.endpoint].pin else None)
      && (k == SignRefused || k == PinFailed ==> y == x.(sign := NoSign))
      && (k == MarkPinned ==> y.sign == NoSign && y.hs.pinned)
      && (k == Drop ==> y.phase == Aborted)
  {
  }

  /** A dial starts without a key, a pin or a proof, at the address it was given; a new row has no pin. */
  lemma BeginningsSay(s: State, c: string, e: string, at: Address)
    ensures Enabled(s, Dial(c, e, at)) ==>
      var x := Apply(s, Dial(c, e, at)).conns[c];
      x.endpoint == e && x.dial == at && x.phase == Dialing && x.hs.status == Unseen && x.pin.None? && x.proof.None?
    ensures Enabled(s, R(e, Insert(at))) ==>
      var r := Apply(s, R(e, Insert(at))).rows[e];
      r.addr == at && r.pin.None?
  {
  }
}
