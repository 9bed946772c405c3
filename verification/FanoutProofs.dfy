/**
 Invariants of the fan-out machine and what they give: what a client holds, what it has
 been sent when a session closes, and the order of its frames, in every run.
 */
module FanoutProofs {
  import opened Common
  import opened OutputRing
  import opened WsConn
  import opened SessionStatus
  import opened Fanout

  // ---------------------------------------------------------------- invariants

  predicate Reading(stage: Stage) {
    stage.HaveLast? || stage.HaveEntry? || stage.HaveRead? || stage.MustSend?
  }

  predicate Ends(stage: Stage) { stage == MustDetach || stage.MustClose? }

  /** Outbound side: accepted is a prefix of offered, one close at most, frames in attach order. */
  ghost predicate BoxInv(s: State) {
    && s.box.Ok()
    && Ordered(s.box.offered, s.me)
    && (s.link.attached || (s.op.Busy? && s.op.stage == MustClose(true)) ==> Live(s.box.offered, s.me))
    && (s.op.Busy? && Reading(s.op.stage) ==> s.link.attached)
    && (s.op.Busy? && s.op.stage.MustClose? ==> !s.link.attached)
  }

  /** Where the goroutine that runs the operation stands. */
  ghost predicate OwnerInv(s: State) {
    s.op.Busy? ==>
      match s.op.owner
      case ByPump => s.pump == Notifying && !s.op.closing && !Ends(s.op.stage)
      case ByPumpEnd => s.pump == Broadcasting && s.op.closing
      case ByCloser => s.life.announcing > 0 && s.op.closing
      case BySweep => s.life.sweep == Wanting && s.op.closing
      case ByRouter =>
        if s.op.closing then s.router == WantClose else s.router == WantFlush && !Ends(s.op.stage)
  }

  /** Two streams: nothing is appended after the clear unless the pump was abandoned, and then once. */
  ghost predicate StreamInv(s: State) {
    var e := s.entry;
    && (e.registered ==>
          e.late == [] && e.lateChunks == 0 && !s.link.heldLate && !s.link.lastLate && s.life.sweep == NoSweep)
    && e.lateChunks <= 1
    && (e.late != [] ==> e.lateChunks == 1)
    && (s.link.spliced ==> e.late != [])
    && (e.lateChunks == 1 ==> s.life.abandoned && !s.pump.Holding?)
    && (s.router == WantClose ==> !e.registered)
    && (s.router.Fetched? ==>
          && EndsAt(s.router.reply.data, e.Stream(s.router.replyLate), s.router.reply.offset)
          && (s.router.replyLate ==> !e.registered))
    && (s.op.Busy? && s.op.stage.HaveRead? && s.op.stage.readLate ==> !e.registered)
    && (s.op.Busy? && s.op.stage.MustSend? && s.op.stage.sendLate ==> !e.registered)
  }

  /** The pump, the transport and the end of the session. */
  ghost predicate PumpInv(s: State) {
    && s.src.taken <= |s.src.sent|
    && (!s.life.abandoned ==>
          s.entry.live + (if s.pump.Holding? then s.pump.chunk else []) == s.src.sent[..s.src.taken])
    && (s.pump.Ending? || PastEnd(s.pump) ==> s.src.ended && s.src.taken == |s.src.sent|)
    && (Final(s.life.status) ==> s.life.abandoned || PastEnd(s.pump))
    && (s.life.finishing + s.life.announcing + s.life.removing > 0 ==> s.life.abandoned || s.pump == Finished)
    && (!s.entry.registered ==> s.life.abandoned || s.life.purged || s.pump == Finished)
    && (s.life.purged ==> !s.entry.registered && (s.life.abandoned || PastEnd(s.pump)))
  }

  /** What the client holds: one unbroken piece of one stream, ending where the connection says it does. */
  ghost predicate TextInv(s: State) {
    TextOk(Text(s.box.Accepted(), s.me), s.box.closed, s.entry.live, s.entry.late, s.link, s.op)
  }

  ghost predicate TextOk(text: seq<Byte>, closed: bool, live: seq<Byte>, late: seq<Byte>, link: Link, op: Op) {
    !link.spliced ==>
      && EndsAt(text, if link.heldLate then late else live, link.heldEnd)
      && (link.attached && !closed && !(op.Busy? && op.stage.MustSend?) ==>
            link.heldEnd == link.last && link.heldLate == link.lastLate)
      && (op.Busy? ==> StageOk(closed, live, late, link, op.stage))
  }

  ghost predicate StageOk(closed: bool, live: seq<Byte>, late: seq<Byte>, link: Link, stage: Stage) {
    match stage
    case HaveLast(l) => l == link.last
    case HaveEntry(l) => l == link.last
    case HaveRead(res, fromLate) =>
      && EndsAt(res.data, if fromLate then late else live, res.offset)
      && (res.reset || (fromLate == link.lastLate && link.last + |res.data| == res.offset))
    case MustSend(res, fromLate) =>
      && link.last == res.offset && link.lastLate == fromLate
      && EndsAt(res.data, if fromLate then late else live, res.offset)
      && (closed || res.reset || (fromLate == link.heldLate && link.heldEnd + |res.data| == res.offset))
    case _ => true
  }

  /** No Close gave up on the pump and no purge removed the session. */
  predicate Orderly(s: State) { !s.life.abandoned && !s.life.purged }

  /** The final drain: the pump's own broadcast reaches every attach that preceded the end. */
  ghost predicate DrainInv(s: State) {
    Orderly(s) ==>
      && (s.link.attached && s.pump == Finished ==> s.link.since.late)
      && (s.op.Busy? && s.op.owner == ByPumpEnd ==> DrainStage(s, s.op.stage))
      && (s.op.Busy? && s.op.owner != ByPumpEnd && s.op.stage == MustClose(true) ==> s.link.since.late)
  }

  ghost predicate DrainStage(s: State, stage: Stage) {
    var all := |s.entry.live|;
    match stage
    case HaveLast(l) => l == s.link.last
    case HaveEntry(l) => l == s.link.last
    case HaveRead(res, fromLate) => !fromLate && res.offset == all
    case MustSend(res, fromLate) => !fromLate && res.offset == all && s.link.last == all && !s.link.lastLate
    case MustDetach => s.link.attached ==> s.link.last == all && !s.link.lastLate
    case MustClose(was) => was && !s.box.closed && !s.link.spliced ==> s.link.heldEnd == all && !s.link.heldLate
    case _ => true
  }

  ghost predicate Inv(s: State) {
    BoxInv(s) && OwnerInv(s) && StreamInv(s) && PumpInv(s) && TextInv(s) && DrainInv(s)
  }

  lemma {:induction false} PumpKeepsOwner(s: State, step: PumpStep)
    requires OwnerInv(s) && StreamInv(s) && CanPump(s, step)
    ensures OwnerInv(DoPump(s, step))
  {
  }

  lemma {:induction false} CloseKeepsOwner(s: State, step: CloseStep)
    requires OwnerInv(s) && StreamInv(s) && CanClose(s, step)
    ensures OwnerInv(DoClose(s, step))
  {
  }

  lemma {:induction false} RouteKeepsOwner(s: State, step: RouteStep)
    requires OwnerInv(s) && StreamInv(s) && CanRoute(s, step)
    ensures OwnerInv(DoRoute(s, step))
  {
  }

  lemma {:induction false} FlushedKeepsOwner(s: State)
    requires OwnerInv(s) && s.op.Busy?
    ensures OwnerInv(Flushed(s))
  {
  }

  lemma {:induction false} ReadKeepsOwner(s: State)
    requires OwnerInv(s) && CanOp(s, OpRead)
    ensures OwnerInv(DoRead(s))
  {
    FlushedKeepsOwner(s);
  }

  lemma {:induction false} SendKeepsOwner(s: State, step: OpStep)
    requires OwnerInv(s) && CanOp(s, step) && (step == OpSend || step == OpClosed)
    ensures OwnerInv(DoOp(s, step))
  {
    FlushedKeepsOwner(s);
  }

  lemma {:induction false} OpKeepsOwner(s: State, step: OpStep)
    requires OwnerInv(s) && CanOp(s, step)
    ensures OwnerInv(DoOp(s, step))
  {
    match step
    case OpRead => ReadKeepsOwner(s);
    case OpSend => SendKeepsOwner(s, step);
    case OpClosed => SendKeepsOwner(s, step);
    case _ => FlushedKeepsOwner(s);
  }

  lemma {:induction false} BoxKeepsOwner(s: State, step: BoxStep)
    requires OwnerInv(s) && StreamInv(s) && (step == Write ==> s.box.queue != [])
    ensures OwnerInv(DoBox(s, step))
  {
  }

  lemma {:induction false} PumpKeepsStream(s: State, step: PumpStep)
    requires OwnerInv(s) && StreamInv(s) && PumpInv(s) && CanPump(s, step)
    ensures StreamInv(DoPump(s, step))
  {
  }

  lemma {:induction false} CloseKeepsStream(s: State, step: CloseStep)
    requires OwnerInv(s) && StreamInv(s) && PumpInv(s) && CanClose(s, step)
    ensures StreamInv(DoClose(s, step))
  {
  }

  lemma {:induction false} RouteKeepsStream(s: State, step: RouteStep)
    requires OwnerInv(s) && StreamInv(s) && PumpInv(s) && CanRoute(s, step)
    ensures StreamInv(DoRoute(s, step))
  {
  }

  lemma {:induction false} ReadKeepsStream(s: State)
    requires OwnerInv(s) && StreamInv(s) && CanOp(s, OpRead)
    ensures StreamInv(DoRead(s))
  {
  }

  lemma {:induction false} OpKeepsStream(s: State, step: OpStep)
    requires OwnerInv(s) && StreamInv(s) && PumpInv(s) && CanOp(s, step)
    ensures StreamInv(DoOp(s, step))
  {
    if step == OpRead { ReadKeepsStream(s); }
  }

  lemma {:induction false} BoxKeepsStream(s: State, step: BoxStep)
    requires OwnerInv(s) && StreamInv(s) && PumpInv(s) && (step == Write ==> s.box.queue != [])
    ensures StreamInv(DoBox(s, step))
  {
  }

  lemma {:induction false} PumpKeepsPump(s: State, step: PumpStep)
    requires OwnerInv(s) && StreamInv(s) && PumpInv(s) && CanPump(s, step)
    ensures PumpInv(DoPump(s, step))
  {
  }

  lemma {:induction false} CloseKeepsPump(s: State, step: CloseStep)
    requires OwnerInv(s) && StreamInv(s) && PumpInv(s) && CanClose(s, step)
    ensures PumpInv(DoClose(s, step))
  {
  }

  lemma {:induction false} RouteKeepsPump(s: State, step: RouteStep)
    requires OwnerInv(s) && StreamInv(s) && PumpInv(s) && CanRoute(s, step)
    ensures PumpInv(DoRoute(s, step))
  {
  }

  lemma {:induction false} ReleaseKeepsPump(s: State)
    requires OwnerInv(s) && PumpInv(s) && s.op.Busy?
    ensures PumpInv(Release(s))
  {
  }

  lemma {:induction false} OpKeepsPump(s: State, step: OpStep)
    requires OwnerInv(s) && StreamInv(s) && PumpInv(s) && CanOp(s, step)
    ensures PumpInv(DoOp(s, step))
  {
    ReleaseKeepsPump(s);
  }

  lemma {:induction false} BoxKeepsPump(s: State, step: BoxStep)
    requires OwnerInv(s) && StreamInv(s) && PumpInv(s) && (step == Write ==> s.box.queue != [])
    ensures PumpInv(DoBox(s, step))
  {
  }

  /** What an attach reply, or the part of it that was let through, does to the client. */
  lemma ReplyEffect(fs: seq<Frame>, me: string, res: FromResult, pre: seq<Frame>)
    requires pre <= ReplyFrames(me, res)
    ensures Ordered(fs, me) ==> Ordered(fs + pre, me)
    ensures pre != [] ==> Live(fs + pre, me)
    ensures Text(fs + pre, me) ==
      if pre == [] then Text(fs, me) else if |pre| == 3 then res.data else []
  {
    var full := ReplyFrames(me, res);
    var one, two := fs + [full[0]], fs + [full[0]] + [full[1]];
    Snoc(fs, full[0], me);
    Snoc(one, full[1], me);
    if pre == [] {
      assert fs + pre == fs;
    } else if |pre| == 1 {
      assert fs + pre == one;
    } else if |pre| == 2 {
      assert fs + pre == two;
    } else {
      Snoc(two, full[2], me);
      assert fs + pre == two + [full[2]];
    }
  }

  lemma AttachKeepsBox(s: State, res: FromResult, fromLate: bool)
    requires BoxInv(s) && s.op == Free
    ensures BoxInv(Attach(s, res, fromLate))
  {
    var fs := ReplyFrames(s.me, res);
    OfferAllOk(s.box, fs);
    var box := OfferAll(s.box, fs);
    var pre := box.offered[|s.box.offered|..];
    assert box.offered == s.box.offered + pre && pre <= fs;
    ReplyEffect(s.box.offered, s.me, res, pre);
  }

  lemma {:induction false} PumpKeepsBox(s: State, step: PumpStep)
    requires BoxInv(s) && CanPump(s, step)
    ensures BoxInv(DoPump(s, step))
  {
  }

  lemma {:induction false} CloseKeepsBox(s: State, step: CloseStep)
    requires BoxInv(s) && CanClose(s, step)
    ensures BoxInv(DoClose(s, step))
  {
  }

  lemma {:induction false} RouteKeepsBox(s: State, step: RouteStep)
    requires BoxInv(s) && CanRoute(s, step)
    ensures BoxInv(DoRoute(s, step))
  {
    if step == RouteAttach {
      AttachKeepsBox(s, s.router.reply, s.router.replyLate);
    }
  }

  lemma SendKeepsBox(s: State)
    requires BoxInv(s) && OwnerInv(s) && CanOp(s, OpSend)
    ensures BoxInv(DoSend(s))
  {
    var res := s.op.stage.send;
    var f := Output(s.me, res.data, res.offset, res.reset);
    OfferOk(s.box, f);
    Snoc(s.box.offered, f, s.me);
  }

  lemma ClosedKeepsBox(s: State)
    requires BoxInv(s) && CanOp(s, OpClosed)
    ensures BoxInv(DoOp(s, OpClosed))
  {
    OfferOk(s.box, ClosedFrame(s.me));
    Snoc(s.box.offered, ClosedFrame(s.me), s.me);
  }

  lemma {:induction false} OpKeepsBox(s: State, step: OpStep)
    requires BoxInv(s) && OwnerInv(s) && CanOp(s, step)
    ensures BoxInv(DoOp(s, step))
  {
    match step
    case OpLook =>
    case OpGet =>
    case OpRead =>
    case OpRecord =>
    case OpSend => SendKeepsBox(s);
    case OpDetach =>
    case OpClosed => ClosedKeepsBox(s);
  }

  lemma {:induction false} BoxKeepsBox(s: State, step: BoxStep)
    requires BoxInv(s) && (step == Write ==> s.box.queue != [])
    ensures BoxInv(DoBox(s, step))
  {
    match step
    case Write => WriteOneOk(s.box);
    case OfferOther =>
      OfferOk(s.box, OtherFrame);
      Snoc(s.box.offered, OtherFrame, s.me);
    case ShutConn =>
  }

  // Text

  lemma EndsAtGrows(text: seq<Byte>, stream: seq<Byte>, more: seq<Byte>, end: int)
    requires EndsAt(text, stream, end)
    ensures EndsAt(text, stream + more, end)
  {
    assert (stream + more)[end - |text|..end] == stream[end - |text|..end];
  }

  lemma EndsAtJoins(a: seq<Byte>, b: seq<Byte>, stream: seq<Byte>, mid: int, end: int)
    requires EndsAt(a, stream, mid) && EndsAt(b, stream, end) && mid + |b| == end
    ensures EndsAt(a + b, stream, end)
  {
    assert stream[mid - |a|..end] == stream[mid - |a|..mid] + stream[mid..end];
  }

  /** What was said about either stream stays true when one of them grows. */
  lemma {:induction false} TextGrows(text: seq<Byte>, closed: bool, live: seq<Byte>, late: seq<Byte>,
                                     moreLive: seq<Byte>, moreLate: seq<Byte>, link: Link, op: Op)
    requires TextOk(text, closed, live, late, link, op)
    ensures TextOk(text, closed, live + moreLive, late + moreLate, link, op)
  {
    if !link.spliced {
      var held, moreHeld := if link.heldLate then late else live, if link.heldLate then moreLate else moreLive;
      EndsAtGrows(text, held, moreHeld, link.heldEnd);
      if op.Busy? { StageGrows(closed, live, late, moreLive, moreLate, link, op.stage); }
    }
  }

  lemma {:induction false} StageGrows(closed: bool, live: seq<Byte>, late: seq<Byte>,
                                      moreLive: seq<Byte>, moreLate: seq<Byte>, link: Link, stage: Stage)
    requires StageOk(closed, live, late, link, stage)
    ensures StageOk(closed, live + moreLive, late + moreLate, link, stage)
  {
    match stage
    case HaveRead(res, fromLate) =>
      EndsAtGrows(res.data, if fromLate then late else live, if fromLate then moreLate else moreLive, res.offset);
    case MustSend(res, fromLate) =>
      EndsAtGrows(res.data, if fromLate then late else live, if fromLate then moreLate else moreLive, res.offset);
    case _ =>
  }

  lemma {:induction false} AppendKeepsText(s: State)
    requires TextInv(s) && CanPump(s, Append)
    ensures TextInv(DoPump(s, Append))
  {
    var chunk := s.pump.chunk;
    var moreLive, moreLate := if s.entry.registered then chunk else [], if s.entry.registered then [] else chunk;
    TextGrows(Text(s.box.Accepted(), s.me), s.box.closed, s.entry.live, s.entry.late, moreLive, moreLate, s.link, s.op);
    assert s.entry.live + [] == s.entry.live && s.entry.late + [] == s.entry.late;
  }

  lemma {:induction false} PumpKeepsText(s: State, step: PumpStep)
    requires BoxInv(s) && StreamInv(s) && TextInv(s) && CanPump(s, step)
    ensures TextInv(DoPump(s, step))
  {
    if step == Append { AppendKeepsText(s); }
  }

  lemma {:induction false} CloseKeepsText(s: State, step: CloseStep)
    requires TextInv(s) && CanClose(s, step)
    ensures TextInv(DoClose(s, step))
  {
  }

  /** The client's text after an attach reply: all of it, none of it, or what it was. */
  lemma ReplyText(o: Outbound, me: string, res: FromResult)
    requires o.Ok()
    ensures
      var box := OfferAll(o, ReplyFrames(me, res));
      Text(box.Accepted(), me) == if !box.closed then res.data else if Fits(o) then [] else Text(o.Accepted(), me)
  {
    var fs := ReplyFrames(me, res);
    OfferAllOk(o, fs);
    var box := OfferAll(o, fs);
    var pre := box.Accepted()[|o.Accepted()|..];
    assert box.Accepted() == o.Accepted() + pre && pre <= fs;
    ReplyEffect(o.Accepted(), me, res, pre);
  }

  lemma AttachKeepsText(s: State, res: FromResult, fromLate: bool)
    requires BoxInv(s) && TextInv(s) && s.op == Free
    requires EndsAt(res.data, s.entry.Stream(fromLate), res.offset)
    ensures TextInv(Attach(s, res, fromLate))
  {
    ReplyText(s.box, s.me, res);
    OfferAllOk(s.box, ReplyFrames(s.me, res));
  }

  lemma {:induction false} RouteKeepsText(s: State, step: RouteStep)
    requires BoxInv(s) && StreamInv(s) && TextInv(s) && CanRoute(s, step)
    ensures TextInv(DoRoute(s, step))
  {
    if step == RouteAttach {
      AttachKeepsText(s, s.router.reply, s.router.replyLate);
    }
  }

  /** flushLocked's return leaves everything but the operation and its goroutine alone. */
  lemma FlushedQuiet(s: State)
    requires s.op.Busy? && (s.op.owner == ByCloser ==> s.life.announcing > 0)
    ensures
      var t := Flushed(s);
      && t.link == s.link && t.entry == s.entry && t.box == s.box && t.me == s.me
      && (t.op == Free || t.op == Busy(s.op.owner, true, MustDetach))
  {
  }

  lemma SendKeepsText(s: State)
    requires BoxInv(s) && TextInv(s) && CanOp(s, OpSend)
    ensures TextInv(DoSend(s))
  {
    FlushedQuiet(s);
    var MustSend(res, fromLate) := s.op.stage;
    var f := Output(s.me, res.data, res.offset, res.reset);
    OfferOk(s.box, f);
    Snoc(s.box.Accepted(), f, s.me);
    if !s.link.spliced && Fits(s.box) && !res.reset {
      EndsAtJoins(Text(s.box.Accepted(), s.me), res.data, s.entry.Stream(fromLate), s.link.heldEnd, res.offset);
    }
    var t := DoSend(s);
    assert TextOk(Text(t.box.Accepted(), t.me), t.box.closed, t.entry.live, t.entry.late, t.link, t.op);
  }

  lemma ClosedKeepsText(s: State)
    requires BoxInv(s) && TextInv(s) && CanOp(s, OpClosed)
    ensures TextInv(DoOp(s, OpClosed))
  {
    OfferOk(s.box, ClosedFrame(s.me));
    Snoc(s.box.Accepted(), ClosedFrame(s.me), s.me);
  }

  lemma ReadKeepsText(s: State)
    requires BoxInv(s) && OwnerInv(s) && StreamInv(s) && TextInv(s) && CanOp(s, OpRead)
    ensures TextInv(DoRead(s))
  {
  }

  lemma {:induction false} OpKeepsText(s: State, step: OpStep)
    requires BoxInv(s) && OwnerInv(s) && StreamInv(s) && TextInv(s) && CanOp(s, step)
    ensures TextInv(DoOp(s, step))
  {
    match step
    case OpLook =>
    case OpGet =>
    case OpRead => ReadKeepsText(s);
    case OpRecord =>
    case OpSend => SendKeepsText(s);
    case OpDetach =>
    case OpClosed => ClosedKeepsText(s);
  }

  lemma {:induction false} BoxKeepsText(s: State, step: BoxStep)
    requires BoxInv(s) && TextInv(s) && (step == Write ==> s.box.queue != [])
    ensures TextInv(DoBox(s, step))
  {
    match step
    case Write => WriteOneOk(s.box);
    case OfferOther =>
      OfferOk(s.box, OtherFrame);
      Snoc(s.box.Accepted(), OtherFrame, s.me);
    case ShutConn =>
  }

  // Final drain

  lemma {:induction false} PumpKeepsDrain(s: State, step: PumpStep)
    requires OwnerInv(s) && StreamInv(s) && PumpInv(s) && DrainInv(s) && CanPump(s, step)
    ensures DrainInv(DoPump(s, step))
  {
  }

  lemma {:induction false} CloseKeepsDrain(s: State, step: CloseStep)
    requires OwnerInv(s) && PumpInv(s) && DrainInv(s) && CanClose(s, step)
    ensures DrainInv(DoClose(s, step))
  {
  }

  lemma {:induction false} RouteKeepsDrain(s: State, step: RouteStep)
    requires OwnerInv(s) && PumpInv(s) && DrainInv(s) && CanRoute(s, step)
    ensures DrainInv(DoRoute(s, step))
  {
  }

  lemma {:induction false} ReadKeepsDrain(s: State)
    requires BoxInv(s) && OwnerInv(s) && StreamInv(s) && PumpInv(s) && DrainInv(s) && CanOp(s, OpRead)
    ensures DrainInv(DoRead(s))
  {
  }

  lemma {:induction false} SendKeepsDrain(s: State)
    requires BoxInv(s) && OwnerInv(s) && PumpInv(s) && DrainInv(s) && CanOp(s, OpSend)
    ensures DrainInv(DoSend(s))
  {
  }

  lemma {:induction false} LookKeepsDrain(s: State, step: OpStep)
    requires BoxInv(s) && OwnerInv(s) && StreamInv(s) && PumpInv(s) && DrainInv(s) && CanOp(s, step)
    requires step == OpLook || step == OpGet || step == OpRecord
    ensures DrainInv(DoOp(s, step))
  {
  }

  lemma {:induction false} EndKeepsDrain(s: State, step: OpStep)
    requires BoxInv(s) && OwnerInv(s) && StreamInv(s) && PumpInv(s) && TextInv(s) && DrainInv(s) && CanOp(s, step)
    requires step == OpDetach || step == OpClosed
    ensures DrainInv(DoOp(s, step))
  {
  }

  lemma {:induction false} OpKeepsDrain(s: State, step: OpStep)
    requires Inv(s) && CanOp(s, step)
    ensures DrainInv(DoOp(s, step))
  {
    match step
    case OpRead => ReadKeepsDrain(s);
    case OpSend => SendKeepsDrain(s);
    case OpDetach => EndKeepsDrain(s, step);
    case OpClosed => EndKeepsDrain(s, step);
    case _ => LookKeepsDrain(s, step);
  }

  lemma {:induction false} BoxKeepsDrain(s: State, step: BoxStep)
    requires DrainInv(s) && (step == Write ==> s.box.queue != [])
    ensures DrainInv(DoBox(s, step))
  {
  }

  lemma InitialInv(me: string, max: nat)
    ensures Inv(Initial(me, max))
  {
  }

  lemma {:induction false} StepKeeps(s: State, step: Step)
    requires Inv(s) && Enabled(s, step)
    ensures Inv(Apply(s, step))
  {
    match step
    case P(p) =>
      PumpKeepsBox(s, p); PumpKeepsOwner(s, p); PumpKeepsStream(s, p);
      PumpKeepsPump(s, p); PumpKeepsText(s, p); PumpKeepsDrain(s, p);
    case C(c) =>
      CloseKeepsBox(s, c); CloseKeepsOwner(s, c); CloseKeepsStream(s, c);
      CloseKeepsPump(s, c); CloseKeepsText(s, c); CloseKeepsDrain(s, c);
    case R(r) =>
      RouteKeepsBox(s, r); RouteKeepsOwner(s, r); RouteKeepsStream(s, r);
      RouteKeepsPump(s, r); RouteKeepsText(s, r); RouteKeepsDrain(s, r);
    case O(o) =>
      OpKeepsBox(s, o); OpKeepsOwner(s, o); OpKeepsStream(s, o);
      OpKeepsPump(s, o); OpKeepsText(s, o); OpKeepsDrain(s, o);
    case B(b) =>
      BoxKeepsBox(s, b); BoxKeepsOwner(s, b); BoxKeepsStream(s, b);
      BoxKeepsPump(s, b); BoxKeepsText(s, b); BoxKeepsDrain(s, b);
  }

  lemma {:induction false} RunKeeps(s: State, steps: seq<Step>, t: State)
    requires Inv(s) && Run(s, steps, t)
    ensures Inv(t)
    decreases |steps|
  {
    if steps != [] {
      StepKeeps(s, steps[0]);
      RunKeeps(Apply(s, steps[0]), steps[1..], t);
    }
  }

  // ---------------------------------------------------------------- theorems

  /** The connection is between recording an offset and offering the frame that ends there. */
  predicate MidSend(s: State) { s.op.Busy? && s.op.stage.MustSend? }

  /**
   For a client that starts over at every attach. In every run in which no Close gave up on
   its pump, it holds one unbroken piece
   of the session's byte stream, and while it is attached that piece ends exactly at the
   offset the connection has recorded: no byte twice, no gap. With an abandoned pump the
   same holds of the stream before or after the clear, unless a delta crossed the clear.
   */
  lemma ClientHoldsOnePiece(me: string, max: nat, steps: seq<Step>, s: State)
    requires Run(Initial(me, max), steps, s)
    ensures !s.life.abandoned ==> !s.link.spliced && s.entry.late == []
    ensures !s.link.spliced ==>
      && EndsAt(Text(s.box.Accepted(), me), s.entry.Stream(s.link.heldLate), s.link.heldEnd)
      && (s.link.attached && !s.box.closed && !MidSend(s) ==>
            && s.link.heldEnd == s.link.last && s.link.heldLate == s.link.lastLate
            && (s.entry.registered ==> EndsAt(Text(s.box.Accepted(), me), s.entry.live, s.link.last)))
  {
    InitialInv(me, max);
    RunKeeps(Initial(me, max), steps, s);
    MeIsFixed(Initial(me, max), steps, s);
  }

  lemma {:induction false} MeIsFixed(s: State, steps: seq<Step>, t: State)
    requires Run(s, steps, t)
    ensures t.me == s.me && t.max == s.max
    decreases |steps|
  {
    if steps != [] {
      MeIsFixed(Apply(s, steps[0]), steps[1..], t);
    }
  }

  /**
   Exactly when a delta crosses the clear: the read lands on the buffer of a removed
   session, the offset was recorded before the removal, and the late chunk reaches past it.
   */
  lemma SplicesExactlyWhen(me: string, max: nat, steps: seq<Step>, s: State, step: Step)
    requires Run(Initial(me, max), steps, s) && Enabled(s, step) && !s.link.spliced
    ensures Apply(s, step).link.spliced <==>
      && step == O(OpRead) && !s.entry.registered && !s.link.lastLate
      && Floor(|s.entry.late|, s.max) <= s.link.last < |s.entry.late|
  {
    InitialInv(me, max);
    RunKeeps(Initial(me, max), steps, s);
    if step == O(OpRead) {
      ReadSplicesWhen(s);
    } else {
      OnlyReadSplices(s, step);
    }
  }

  lemma ReadSplicesWhen(s: State)
    requires TextInv(s) && CanOp(s, OpRead) && !s.link.spliced
    ensures DoRead(s).link.spliced <==>
      && !s.entry.registered && !s.link.lastLate
      && Floor(|s.entry.late|, s.max) <= s.link.last < |s.entry.late|
  {
  }

  lemma OnlyReadSplices(s: State, step: Step)
    requires Enabled(s, step) && step != O(OpRead)
    ensures Apply(s, step).link.spliced == s.link.spliced
  {
    match step
    case P(p) => OtherStepsKeepLink(s, step);
    case C(c) => OtherStepsKeepLink(s, step);
    case R(r) =>
    case O(o) => OpKeepsSpliced(s, o);
    case B(b) => OtherStepsKeepLink(s, step);
  }

  lemma OtherStepsKeepLink(s: State, step: Step)
    requires Enabled(s, step) && (step.P? || step.C? || step.B?)
    ensures Apply(s, step).link == s.link
  {
  }

  lemma OpKeepsSpliced(s: State, step: OpStep)
    requires CanOp(s, step) && step != OpRead
    ensures DoOp(s, step).link.spliced == s.link.spliced
  {
  }

  /** After an abandoned pump's Close, at most one more chunk reaches the cleared buffer. */
  lemma AtMostOneLateChunk(me: string, max: nat, steps: seq<Step>, s: State)
    requires Run(Initial(me, max), steps, s)
    ensures s.entry.lateChunks <= 1
    ensures s.entry.late != [] ==> s.life.abandoned && !s.entry.registered
  {
    InitialInv(me, max);
    RunKeeps(Initial(me, max), steps, s);
  }

  /**
   The outbound side in every run: what the client gets is a prefix of what was offered,
   the channel is closed at most once, and every output or closed frame for the session
   belongs to an attach that has had no closed frame yet.
   */
  lemma FramesInOrder(me: string, max: nat, steps: seq<Step>, s: State)
    requires Run(Initial(me, max), steps, s)
    ensures s.box.Accepted() <= s.box.offered && s.box.closes <= 1
    ensures Ordered(s.box.Accepted(), me) && Ordered(s.box.offered, me)
  {
    InitialInv(me, max);
    RunKeeps(Initial(me, max), steps, s);
    MeIsFixed(Initial(me, max), steps, s);
    OrderedPrefix(s.box.Accepted(), s.box.offered, me);
  }

  lemma {:induction false} AcceptedGrows(s: State, steps: seq<Step>, t: State)
    requires Inv(s) && Run(s, steps, t)
    ensures s.box.Accepted() <= t.box.Accepted()
    ensures s.box.closed ==> t.box.closed && t.box.Accepted() == s.box.Accepted()
    decreases |steps|
  {
    if steps != [] {
      StepKeeps(s, steps[0]);
      AcceptedStep(s, steps[0]);
      AcceptedGrows(Apply(s, steps[0]), steps[1..], t);
    }
  }

  /** Frames already accepted stay; once the channel is closed nothing is ever added. */
  lemma AcceptedOnlyGrows(me: string, max: nat, before: seq<Step>, s: State, steps: seq<Step>, t: State)
    requires Run(Initial(me, max), before, s) && Run(s, steps, t)
    ensures s.box.Accepted() <= t.box.Accepted()
    ensures s.box.closed ==> t.box.closed && t.box.Accepted() == s.box.Accepted()
  {
    InitialInv(me, max);
    RunKeeps(Initial(me, max), before, s);
    AcceptedGrows(s, steps, t);
  }

  lemma AcceptedStep(s: State, step: Step)
    requires s.box.Ok() && Enabled(s, step)
    ensures s.box.Accepted() <= Apply(s, step).box.Accepted()
    ensures s.box.closed ==> Apply(s, step).box.closed && Apply(s, step).box.Accepted() == s.box.Accepted()
  {
    match step
    case P(p) =>
    case C(c) =>
    case R(r) =>
      if r == RouteAttach { OfferAllOk(s.box, ReplyFrames(s.me, s.router.reply)); }
    case O(o) => AcceptedOp(s, o);
    case B(b) =>
      if b == Write { WriteOneOk(s.box); } else { OfferOk(s.box, OtherFrame); }
  }

  lemma AcceptedOp(s: State, step: OpStep)
    requires s.box.Ok() && CanOp(s, step)
    ensures s.box.Accepted() <= DoOp(s, step).box.Accepted()
    ensures s.box.closed ==> DoOp(s, step).box.closed && DoOp(s, step).box.Accepted() == s.box.Accepted()
  {
    if step == OpSend {
      var res := s.op.stage.send;
      OfferOk(s.box, Output(s.me, res.data, res.offset, res.reset));
    } else if step == OpClosed {
      OfferOk(s.box, ClosedFrame(s.me));
    }
  }
}
