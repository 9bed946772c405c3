/**
 What a client has been sent when terminal:closed is due, for every attach: the final drain
 and the two ways in which it can come too late.
 */
module FanoutDrain {
  import opened OutputRing
  import opened WsConn
  import opened Fanout
  import opened FanoutProofs

  predicate InRead(op: Op) { op.Busy? && (op.stage.HaveEntry? || op.stage.HaveRead?) }

  predicate ByEndOf(op: Op) { op.Busy? && op.owner == ByPumpEnd && op.stage != Start && !op.stage.HaveLast? }

  /**
   How the recorded offset came about, in a session no Close gave up on and no purge
   removed: the reply's end, the end of the stream, or zero after a crossed read.
   */
  ghost predicate CatchOk(link: Link, op: Op, all: nat, registered: bool, past: bool) {
    var n := link.since;
    && (n.late ==> past)
    && (n.crossed ==> n.found && !registered)
    && (n.crossed && !(op.Busy? && op.stage.HaveRead?) ==> link.last == 0)
    && (n.late && n.found && !n.crossed && !InRead(op) ==> link.last == all)
    && (n.late && !n.found ==> link.last == n.replyEnd)
    && (InRead(op) ==> n.found)
    && (ByEndOf(op) && (link.attached || op.stage == MustClose(true)) ==> n.found)
    && (op.Busy? && op.stage.HaveEntry? ==> op.stage.from == link.last)
    && (op.Busy? && op.stage.HaveLast? ==> op.stage.at == link.last)
    && (op.Busy? && op.stage.HaveRead? ==> op.stage.readLate == n.crossed)
    && (op.Busy? && op.stage.HaveRead? && n.crossed ==> op.stage.read.offset == 0)
    && (op.Busy? && op.stage.HaveRead? && n.late && !n.crossed ==> op.stage.read.offset == all)
  }

  /** At the closed frame the client's text ends where the connection had recorded. */
  ghost predicate HeldOk(link: Link, op: Op, closed: bool) {
    op.Busy? && op.stage == MustClose(true) && !closed && !link.spliced ==>
      link.heldEnd == link.last && link.heldLate == link.lastLate
  }

  ghost predicate CatchInv(s: State) {
    && (Orderly(s) ==> CatchOk(s.link, s.op, |s.entry.live|, s.entry.registered, PastEnd(s.pump)))
    && HeldOk(s.link, s.op, s.box.closed)
  }

  lemma {:induction false} PumpKeepsCatch(s: State, step: PumpStep)
    requires OwnerInv(s) && StreamInv(s) && PumpInv(s) && CatchInv(s) && CanPump(s, step)
    ensures CatchInv(DoPump(s, step))
  {
  }

  lemma {:induction false} CloseKeepsCatch(s: State, step: CloseStep)
    requires OwnerInv(s) && StreamInv(s) && PumpInv(s) && CatchInv(s) && CanClose(s, step)
    ensures CatchInv(DoClose(s, step))
  {
  }

  lemma {:induction false} RouteKeepsCatch(s: State, step: RouteStep)
    requires OwnerInv(s) && StreamInv(s) && PumpInv(s) && CatchInv(s) && CanRoute(s, step)
    ensures CatchInv(DoRoute(s, step))
  {
  }

  lemma {:induction false} BoxKeepsCatch(s: State, step: BoxStep)
    requires CatchInv(s) && (step == Write ==> s.box.queue != [])
    ensures CatchInv(DoBox(s, step))
  {
  }

  lemma {:induction false} ReadKeepsCatch(s: State)
    requires BoxInv(s) && OwnerInv(s) && StreamInv(s) && PumpInv(s) && CatchInv(s) && CanOp(s, OpRead)
    ensures CatchInv(DoRead(s))
  {
  }

  lemma {:induction false} LookKeepsCatch(s: State, step: OpStep)
    requires BoxInv(s) && OwnerInv(s) && StreamInv(s) && PumpInv(s) && CatchInv(s) && CanOp(s, step)
    requires step == OpLook || step == OpGet || step == OpRecord
    ensures CatchInv(DoOp(s, step))
  {
  }

  lemma {:induction false} SendKeepsCatch(s: State)
    requires OwnerInv(s) && StreamInv(s) && PumpInv(s) && CatchInv(s) && CanOp(s, OpSend)
    ensures CatchInv(DoSend(s))
  {
  }

  lemma {:induction false} EndKeepsCatch(s: State, step: OpStep)
    requires OwnerInv(s) && StreamInv(s) && PumpInv(s) && TextInv(s) && CatchInv(s) && CanOp(s, step)
    requires step == OpDetach || step == OpClosed
    ensures CatchInv(DoOp(s, step))
  {
  }

  lemma {:induction false} StepKeepsCatch(s: State, step: Step)
    requires Inv(s) && CatchInv(s) && Enabled(s, step)
    ensures CatchInv(Apply(s, step))
  {
    match step
    case P(p) => PumpKeepsCatch(s, p);
    case C(c) => CloseKeepsCatch(s, c);
    case R(r) => RouteKeepsCatch(s, r);
    case B(b) => BoxKeepsCatch(s, b);
    case O(o) =>
      match o {
        case OpRead => ReadKeepsCatch(s);
        case OpSend => SendKeepsCatch(s);
        case OpDetach => EndKeepsCatch(s, o);
        case OpClosed => EndKeepsCatch(s, o);
        case _ => LookKeepsCatch(s, o);
      }
  }

  lemma {:induction false} RunKeepsCatch(s: State, steps: seq<Step>, t: State)
    requires Inv(s) && CatchInv(s) && Run(s, steps, t)
    ensures Inv(t) && CatchInv(t)
    decreases |steps|
  {
    if steps != [] {
      StepKeeps(s, steps[0]);
      StepKeepsCatch(s, steps[0]);
      RunKeepsCatch(Apply(s, steps[0]), steps[1..], t);
    }
  }

  // ---------------------------------------------------------------- theorems

  /** terminal:closed is about to be offered, and the connection has not overflowed. */
  predicate ClosedIsDue(s: State) { s.op.Busy? && s.op.stage == MustClose(true) && !s.box.closed }

  /**
   The final drain, exactly. When terminal:closed is due and neither a timed-out Close nor a
   purge interfered, the client has been sent output up to the last byte the transport
   delivered if and only if there was none, or no flush since the attach found the entry
   before the removal and read its buffer after it, and either some flush since the attach
   found the entry or the attach's own reply already reached the end.
   */
  lemma ReachesTheEndExactlyWhen(me: string, max: nat, steps: seq<Step>, s: State)
    requires Run(Initial(me, max), steps, s) && ClosedIsDue(s) && Orderly(s)
    ensures s.src.ended && s.entry.live == s.src.sent
    ensures
      var n := s.link.since;
      s.link.heldEnd == |s.src.sent| <==>
        s.src.sent == [] || (!n.crossed && (n.found || n.replyEnd == |s.src.sent|))
    ensures s.link.since.crossed ==> Text(s.box.Accepted(), me) == []
  {
    InitialInv(me, max);
    RunKeepsCatch(Initial(me, max), steps, s);
    MeIsFixed(Initial(me, max), steps, s);
    assert s.src.sent[..s.src.taken] == s.src.sent;
  }

  /** An attach that landed before the session ended is always drained to the last byte. */
  lemma EveryByteBeforeClosed(me: string, max: nat, steps: seq<Step>, s: State)
    requires Run(Initial(me, max), steps, s) && ClosedIsDue(s) && Orderly(s) && !s.link.since.late
    ensures s.src.ended && s.entry.live == s.src.sent
    ensures s.link.heldEnd == |s.src.sent| && s.link.since.found && !s.link.since.crossed
    ensures EndsAt(Text(s.box.Accepted(), me), s.src.sent, |s.src.sent|)
  {
    InitialInv(me, max);
    RunKeepsCatch(Initial(me, max), steps, s);
    MeIsFixed(Initial(me, max), steps, s);
    assert s.src.sent[..s.src.taken] == s.src.sent;
  }
}
