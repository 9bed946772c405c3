/**
 Delivery of one session's output to one connection, over every interleaving of the
 transport, the session pump (internal/terminal/manager.go), any number of Close calls,
 an account purge, the connection's read loop (internal/ws/router.go), the hub hooks
 (internal/ws/hub.go) and the connection's own traffic (internal/ws/conn.go).

 One step is one critical section. flushOutput and closeSession hold flushMu across
 several sections; `op` is the operation holding it and the section it has reached.
 Frames of other sessions are OtherFrame.
 */
module Fanout {
  import opened Common
  import opened OutputRing
  import opened WsConn
  import opened SessionStatus

  /** The transport: bytes put on the event channel, end of stream, bytes the pump has taken. */
  datatype Source = Source(sent: seq<Byte>, ended: bool, taken: nat)

  /** The pump goroutine. `Holding` is past the abandoned check with a chunk not yet appended. */
  datatype PumpPc = Ranging | Holding(chunk: seq<Byte>) | Appended | Notifying
                  | Ending(failed: bool) | Broadcasting | Finished

  /** The pump has read the end of the stream and made the session's final status change. */
  predicate PastEnd(p: PumpPc) { p == Broadcasting || p == Finished }

  /**
   The registry entry and its buffer: output up to the removal (which clears the buffer),
   and output appended to the cleared buffer afterwards.
   */
  datatype Entry = Entry(live: seq<Byte>, late: seq<Byte>, lateChunks: nat, registered: bool) {
    /** What the buffer holds a window of. */
    function Buffered(): seq<Byte> { if registered then live else late }

    function Stream(fromLate: bool): seq<Byte> { if fromLate then late else live }
  }

  /** The removed hook of whoever deleted the registry entry. */
  datatype SweepPc = NoSweep | Hooked | Wanting | Swept

  /** Session status and the Close calls, which are alike and so counted by how far they have come. */
  datatype Life = Life(status: Status, abandoned: bool, purged: bool,
                       joining: nat, finishing: nat, announcing: nat, removing: nat, sweep: SweepPc)

  /**
   History of the newest attach: did it land after the session ended; the offset its reply
   ended at; did a flush since find the entry in the registry; did a flush since read a
   buffer that was cleared after the flush had found its entry.
   */
  datatype Since = Since(late: bool, replyEnd: int, found: bool, crossed: bool)

  /**
   Per-session state of the connection, with history: is `last` an offset of `late`; where
   the text the client holds ends; did a delta cross the clear; the newest attach.
   */
  datatype Link = Link(attached: bool, last: int,
                       lastLate: bool, heldEnd: int, heldLate: bool, spliced: bool, since: Since)

  /** The connection's read loop, handling an attach. */
  datatype RouterPc = Idle | Got(after: Option<int>) | Fetched(reply: FromResult, replyLate: bool, asked: Option<int>)
                    | WantFlush | Rechecking | WantClose

  /** The goroutine that runs the operation holding flushMu; it stays where it started it until the release. */
  datatype Owner = ByPump | ByPumpEnd | ByCloser | BySweep | ByRouter

  /** How far the operation holding flushMu has come. */
  datatype Stage = Start | HaveLast(at: int) | HaveEntry(from: int)
                 | HaveRead(read: FromResult, readLate: bool) | MustSend(send: FromResult, sendLate: bool)
                 | MustDetach | MustClose(was: bool)

  datatype Op = Free | Busy(owner: Owner, closing: bool, stage: Stage)

  datatype State = State(me: string, max: nat, src: Source, pump: PumpPc, entry: Entry, life: Life,
                         link: Link, box: Outbound, op: Op, router: RouterPc)

  function Initial(me: string, max: nat): State {
    State(me, max, Source([], false, 0), Ranging, Entry([], [], 0, true),
          Life(Open, false, false, 0, 0, 0, 0, NoSweep),
          Link(false, 0, false, 0, false, false, Since(false, 0, false, false)), FRESH, Free, Idle)
  }

  datatype PumpStep =
    | Emit(chunk: seq<Byte>) | End
    | Take(n: nat) | Append | Notify | PumpFlush | PumpEnd(failed: bool) | PumpFinal | PumpBroadcast

  datatype CloseStep =
    | CloseBegin | CloseJoin | CloseGiveUp | CloseFinal | CloseAnnounce | CloseRemove
    | Purge | SweepCheck | SweepRun

  datatype RouteStep =
    | RouteGet(after: Option<int>) | RouteRead | RouteAttach | RouteFlush | RouteCheck | RouteClose | Detach

  datatype OpStep = OpLook | OpGet | OpRead | OpRecord | OpSend | OpDetach | OpClosed

  datatype BoxStep = Write | OfferOther | ShutConn

  datatype Step = P(p: PumpStep) | C(c: CloseStep) | R(r: RouteStep) | O(o: OpStep) | B(b: BoxStep)

  predicate CanPump(s: State, step: PumpStep) {
    match step
    case Emit(_) => !s.src.ended
    case End => true
    case Take(n) => s.pump == Ranging && s.src.taken + n <= |s.src.sent|
    case Append => s.pump.Holding?
    case Notify => s.pump == Appended
    case PumpFlush => s.pump == Notifying && s.op == Free
    case PumpEnd(_) => s.pump == Ranging && s.src.ended && s.src.taken == |s.src.sent|
    case PumpFinal => s.pump.Ending?
    case PumpBroadcast => s.pump == Broadcasting && s.op == Free
  }

  /** beginClosing is refused on a closing or closed session: such a call changes nothing. */
  predicate CanClose(s: State, step: CloseStep) {
    match step
    case CloseBegin => s.life.status == Open || s.life.status == Error
    case CloseJoin => s.life.joining > 0 && s.pump == Finished
    case CloseGiveUp => s.life.joining > 0
    case CloseFinal => s.life.finishing > 0
    case CloseAnnounce => s.life.announcing > 0 && s.op == Free
    case CloseRemove => s.life.removing > 0
    case Purge => s.entry.registered && Final(s.life.status)
    case SweepCheck => s.life.sweep == Hooked
    case SweepRun => s.life.sweep == Wanting && s.op == Free
  }

  predicate CanRoute(s: State, step: RouteStep) {
    match step
    case RouteGet(_) => s.router == Idle && s.entry.registered
    case RouteRead => s.router.Got?
    case RouteAttach => s.router.Fetched? && s.op == Free
    case RouteFlush => s.router == WantFlush && s.op == Free
    case RouteCheck => s.router == Rechecking
    case RouteClose => s.router == WantClose && s.op == Free
    case Detach => s.router == Idle && s.op == Free
  }

  predicate CanOp(s: State, step: OpStep) {
    && s.op.Busy? && (s.op.owner == ByCloser ==> s.life.announcing > 0)
    && match step
      case OpLook => s.op.stage == Start
      case OpGet => s.op.stage.HaveLast?
      case OpRead => s.op.stage.HaveEntry?
      case OpRecord => s.op.stage.HaveRead?
      case OpSend => s.op.stage.MustSend?
      case OpDetach => s.op.stage == MustDetach
      case OpClosed => s.op.stage.MustClose?
  }

  predicate Enabled(s: State, step: Step) {
    match step
    case P(p) => CanPump(s, p)
    case C(c) => CanClose(s, c)
    case R(r) => CanRoute(s, r)
    case O(o) => CanOp(s, o)
    case B(b) => b == Write ==> s.box.queue != []
  }

  function DoPump(s: State, step: PumpStep): State
    requires CanPump(s, step)
  {
    match step
    case Emit(chunk) => s.(src := s.src.(sent := s.src.sent + chunk))
    case End => s.(src := s.src.(ended := true))
    case Take(n) =>
      var chunk := s.src.sent[s.src.taken..s.src.taken + n];
      s.(src := s.src.(taken := s.src.taken + n), pump := if s.life.abandoned then Ranging else Holding(chunk))
    case Append =>
      s.(pump := Appended,
         entry := if s.entry.registered then s.entry.(live := s.entry.live + s.pump.chunk)
                  else s.entry.(late := s.entry.late + s.pump.chunk, lateChunks := s.entry.lateChunks + 1))
    case Notify => s.(pump := if s.link.attached then Notifying else Ranging)
    case PumpFlush => s.(op := Busy(ByPump, false, Start))
    case PumpEnd(failed) => s.(pump := Ending(failed))
    case PumpFinal =>
      if Final(s.life.status) then s.(pump := Finished)
      else s.(pump := Broadcasting, life := s.life.(status := if s.pump.failed then Error else Closed))
    case PumpBroadcast => s.(op := Busy(ByPumpEnd, true, Start))
  }

  /** The delete of the registry entry, which also clears the buffer. */
  function Unregister(s: State, life: Life): State {
    s.(entry := s.entry.(registered := false), life := life.(sweep := Hooked))
  }

  function DoClose(s: State, step: CloseStep): State
    requires CanClose(s, step)
  {
    var l := s.life;
    match step
    case CloseBegin => s.(life := l.(status := Closing, joining := l.joining + 1))
    case CloseJoin => s.(life := l.(joining := l.joining - 1, finishing := l.finishing + 1))
    case CloseGiveUp => s.(life := l.(abandoned := true, joining := l.joining - 1, finishing := l.finishing + 1))
    case CloseFinal =>
      s.(life := if Final(l.status) then l.(finishing := l.finishing - 1, removing := l.removing + 1)
                 else l.(status := Closed, finishing := l.finishing - 1, announcing := l.announcing + 1))
    case CloseAnnounce => s.(op := Busy(ByCloser, true, Start))
    case CloseRemove =>
      var done := l.(removing := l.removing - 1);
      if s.entry.registered then Unregister(s, done) else s.(life := done)
    case Purge => Unregister(s, l.(purged := true))
    case SweepCheck => s.(life := l.(sweep := if s.link.attached then Wanting else Swept))
    case SweepRun => s.(op := Busy(BySweep, true, Start))
  }

  /** The frames of an attach reply. */
  function ReplyFrames(me: string, res: FromResult): seq<Frame> {
    [AttachReply(me), OtherFrame] +
    (if res.data != [] || res.reset then [Output(me, res.data, res.offset, res.reset)] else [])
  }

  /** Where the client's text ends after an attach reply: at its offset, or nowhere if the reply overflowed. */
  function AttachLink(s: State, box: Outbound, res: FromResult, fromLate: bool): Link {
    var l := s.link.(attached := true, last := res.offset, lastLate := fromLate,
                     since := Since(PastEnd(s.pump), res.offset, false, false));
    if !box.closed then l.(heldEnd := res.offset, heldLate := fromLate)
    else if Fits(s.box) then l.(heldEnd := 0, heldLate := false)
    else l
  }

  function Attach(s: State, res: FromResult, fromLate: bool): State {
    var box := OfferAll(s.box, ReplyFrames(s.me, res));
    s.(link := AttachLink(s, box, res, fromLate), router := WantFlush, box := box)
  }

  function DoRoute(s: State, step: RouteStep): State
    requires CanRoute(s, step)
  {
    match step
    case RouteGet(after) => s.(router := Got(after))
    case RouteRead =>
      s.(router := Fetched(DeltaOf(s.entry.Buffered(), s.max, s.router.after), !s.entry.registered, s.router.after))
    case RouteAttach => Attach(s, s.router.reply, s.router.replyLate)
    case RouteFlush => s.(op := Busy(ByRouter, false, Start))
    case RouteCheck => s.(router := if s.entry.registered then Idle else WantClose)
    case RouteClose => s.(op := Busy(ByRouter, true, Start))
    case Detach => s.(link := s.link.(attached := false))
  }

  function At(s: State, stage: Stage): State
    requires s.op.Busy?
  {
    s.(op := s.op.(stage := stage))
  }

  /** flushMu is released and the goroutine that ran the operation goes on. */
  function Release(s: State): State
    requires s.op.Busy? && (s.op.owner == ByCloser ==> s.life.announcing > 0)
  {
    match s.op.owner
    case ByPump => s.(op := Free, pump := Ranging)
    case ByPumpEnd => s.(op := Free, pump := Finished)
    case ByCloser =>
      s.(op := Free, life := s.life.(announcing := s.life.announcing - 1, removing := s.life.removing + 1))
    case BySweep => s.(op := Free, life := s.life.(sweep := Swept))
    case ByRouter => s.(op := Free, router := if s.op.closing then Idle else Rechecking)
  }

  /** flushLocked has returned. */
  function Flushed(s: State): State
    requires s.op.Busy? && (s.op.owner == ByCloser ==> s.life.announcing > 0)
  {
    if s.op.closing then At(s, MustDetach) else Release(s)
  }

  /** A delta was read from the cleared buffer for an offset recorded before the clear, and is not a reset. */
  predicate Splices(s: State, res: FromResult) { !s.entry.registered && !s.link.lastLate && !res.reset }

  /** A read of a buffer cleared since the lookup is remembered. */
  function ReadLink(s: State): Link {
    s.link.(since := s.link.since.(crossed := s.link.since.crossed || !s.entry.registered))
  }

  /** mg.output.ReadFrom for the recorded offset. */
  function DoRead(s: State): State
    requires CanOp(s, OpRead)
  {
    var res := DeltaOf(s.entry.Buffered(), s.max, Some(s.op.stage.from));
    var l := ReadLink(s);
    if res.data == [] && !res.reset then Flushed(s).(link := l)
    else At(s, HaveRead(res, !s.entry.registered)).(link := l.(spliced := s.link.spliced || Splices(s, res)))
  }

  /** The client's text moves to the end of the frame if the frame was accepted. */
  function SendLink(s: State, res: FromResult, fromLate: bool): Link {
    if Fits(s.box) then s.link.(heldEnd := res.offset, heldLate := fromLate) else s.link
  }

  function DoSend(s: State): State
    requires CanOp(s, OpSend)
  {
    var MustSend(res, fromLate) := s.op.stage;
    Flushed(s).(link := SendLink(s, res, fromLate),
                box := Offer(s.box, Output(s.me, res.data, res.offset, res.reset)))
  }

  function DoOp(s: State, step: OpStep): State
    requires CanOp(s, step)
  {
    match step
    case OpLook => if s.link.attached then At(s, HaveLast(s.link.last)) else Flushed(s)
    case OpGet =>
      if s.entry.registered
      then At(s, HaveEntry(s.op.stage.at)).(link := s.link.(since := s.link.since.(found := true)))
      else Flushed(s)
    case OpRead => DoRead(s)
    case OpRecord =>
      At(s, MustSend(s.op.stage.read, s.op.stage.readLate))
        .(link := s.link.(last := s.op.stage.read.offset, lastLate := s.op.stage.readLate))
    case OpSend => DoSend(s)
    case OpDetach => At(s, MustClose(s.link.attached)).(link := s.link.(attached := false))
    case OpClosed =>
      Release(s).(box := if s.op.stage.was then Offer(s.box, ClosedFrame(s.me)) else s.box)
  }

  function DoBox(s: State, step: BoxStep): State
    requires step == Write ==> s.box.queue != []
  {
    s.(box := match step
      case Write => WriteOne(s.box)
      case OfferOther => Offer(s.box, OtherFrame)
      case ShutConn => Shut(s.box))
  }

  function Apply(s: State, step: Step): State
    requires Enabled(s, step)
  {
    match step
    case P(p) => DoPump(s, p)
    case C(c) => DoClose(s, c)
    case R(r) => DoRoute(s, r)
    case O(o) => DoOp(s, o)
    case B(b) => DoBox(s, b)
  }

  ghost predicate Run(s: State, steps: seq<Step>, t: State)
    decreases |steps|
  {
    if steps == [] then s == t
    else Enabled(s, steps[0]) && Run(Apply(s, steps[0]), steps[1..], t)
  }
}
