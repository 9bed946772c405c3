/**
 The long-polling reader of internal/agent/session.go against the session's pump and its
 status changes (internal/terminal/manager.go). Appending, taking the subscriber snapshot
 and calling the subscribers are separate steps, as are the reader's reads, checks and
 subscriptions; `wake` is its one-slot channel.
 */
module LongPoll {
  import opened SessionStatus
  import Sessions

  /** The pump after an append: about to snapshot the output hooks, or about to call them. */
  datatype PumpPc = Quiet | Appended | Calling(reader: bool)

  datatype ReaderPc =
    | FirstGet | FirstRead | FirstCheck | SubscribeOutput | SubscribeStatus
    | LoopGet | LoopRead | LoopCheck | Asleep | LastRead
    | Returned(why: Why)

  datatype Why = NotFound | GotOutput | Ended | NoWait | TimedOut | ContextDone

  /** `end` is the offset past the last byte of the stream the buffer is a window of; clearing makes it 0. */
  datatype Session = Session(end: nat, registered: bool, status: Status)

  /** `statusCalls` counts terminal status hooks in flight whose snapshot holds the reader's hook. */
  datatype Reader = Reader(pc: ReaderPc, after: int, outputHook: bool, statusHook: bool, wake: bool)

  datatype State = State(sess: Session, pump: PumpPc, statusCalls: nat, reader: Reader)

  function Initial(end: nat, after: int): State {
    State(Session(end, true, Open), Quiet, 0, Reader(FirstGet, after, false, false, false))
  }

  datatype Step =
    | Append(n: nat) | Snapshot | CallHooks
    | SetStatus(st: Status) | CallStatusHook | Remove
    | Read(wait: bool) | Wake | Timer | Cancel

  /** Read would return bytes: the window always holds the newest byte. */
  predicate Unread(s: State) { s.reader.after < s.sess.end }

  /** Status changes as setStatus and beginClosing allow them once a session is open. */
  predicate Legal(from: Status, to: Status) {
    match from
    case Open => to != Open
    case Closing => to == Closed || to == Error
    case Error => to == Closing
    case Closed => false
  }

  predicate Enabled(s: State, step: Step) {
    match step
    case Append(n) => s.pump == Quiet && n > 0
    case Snapshot => s.pump == Appended
    case CallHooks => s.pump.Calling?
    case SetStatus(st) => Legal(s.sess.status, st)
    case CallStatusHook => s.statusCalls > 0
    case Remove => s.sess.registered && s.sess.status != Open
    case Read(_) => !s.reader.pc.Asleep? && !s.reader.pc.Returned?
    case Wake => s.reader.pc == Asleep && s.reader.wake
    case Timer => s.reader.pc == Asleep
    case Cancel => s.reader.pc == Asleep
  }

  function At(s: State, pc: ReaderPc): State { s.(reader := s.reader.(pc := pc)) }

  /** The session is gone or has ended. */
  predicate Over(s: State) { !s.sess.registered || Final(s.sess.status) }

  /** The reader's next action, when it is not asleep. */
  function DoRead(s: State, wait: bool): State {
    var r := s.reader;
    match r.pc
    case FirstGet => At(s, if s.sess.registered then FirstRead else Returned(NotFound))
    case FirstRead => At(s, if Unread(s) then Returned(GotOutput) else if !wait then Returned(NoWait) else FirstCheck)
    case FirstCheck => At(s, if Over(s) then Returned(Ended) else SubscribeOutput)
    case SubscribeOutput => s.(reader := r.(outputHook := true, pc := SubscribeStatus))
    case SubscribeStatus => s.(reader := r.(statusHook := true, pc := LoopGet))
    case LoopGet => At(s, if s.sess.registered then LoopRead else Returned(NotFound))
    case LoopRead => At(s, if Unread(s) then Returned(GotOutput) else LoopCheck)
    case LoopCheck => At(s, if Over(s) then Returned(Ended) else Asleep)
    case LastRead => At(s, Returned(TimedOut))
    case _ => s
  }

  function Apply(s: State, step: Step): State
    requires Enabled(s, step)
  {
    match step
    case Append(n) => s.(sess := s.sess.(end := s.sess.end + n), pump := Appended)
    case Snapshot => s.(pump := Calling(s.reader.outputHook))
    case CallHooks => s.(pump := Quiet, reader := s.reader.(wake := s.reader.wake || s.pump.reader))
    case SetStatus(st) =>
      s.(sess := s.sess.(status := st),
         statusCalls := s.statusCalls + if Final(st) && s.reader.statusHook then 1 else 0)
    case CallStatusHook => s.(statusCalls := s.statusCalls - 1, reader := s.reader.(wake := true))
    case Remove => s.(sess := s.sess.(registered := false, end := 0))
    case Read(wait) => DoRead(s, wait)
    case Wake => s.(reader := s.reader.(wake := false, pc := LoopGet))
    case Timer => At(s, LastRead)
    case Cancel => At(s, Returned(ContextDone))
  }

  ghost predicate Run(s: State, steps: seq<Step>, t: State)
    decreases |steps|
  {
    if steps == [] then s == t
    else Enabled(s, steps[0]) && Run(Apply(s, steps[0]), steps[1..], t)
  }

  predicate InLoop(pc: ReaderPc) { pc == LoopGet || pc == LoopRead || pc == LoopCheck || pc == Asleep }

  /** An append whose notification has not reached the reader yet. */
  predicate OutputInFlight(s: State) { s.pump == Appended || s.pump == Calling(true) }

  /**
   From the first read after both subscriptions on, whatever the reader has not seen is on
   its way to it, or its wake channel is already full.
   */
  ghost predicate Inv(s: State) {
    && (InLoop(s.reader.pc) ==> s.reader.outputHook && s.reader.statusHook)
    && (s.reader.pc == SubscribeStatus ==> s.reader.outputHook)
    && ((s.reader.pc == LoopCheck || s.reader.pc == Asleep) && Unread(s) ==> s.reader.wake || OutputInFlight(s))
    && (s.reader.pc == Asleep && Final(s.sess.status) ==> s.reader.wake || s.statusCalls > 0)
    && (s.reader.pc == Asleep && !s.sess.registered ==>
          s.reader.wake || s.statusCalls > 0 || s.sess.status == Closing)
    && (!s.sess.registered ==> s.sess.status != Open)
  }

  lemma {:induction false} StepKeeps(s: State, step: Step)
    requires Inv(s) && Enabled(s, step)
    ensures Inv(Apply(s, step))
  {
  }

  lemma {:induction false} RunKeeps(s: State, steps: seq<Step>, t: State)
    requires Inv(s) && Run(s, steps, t)
    ensures Inv(t)
    decreases |steps|
  {
    if steps != [] {
      StepKeeps(s, steps[0]);
      RunKeeps(Apply(s, steps[0]), steps[1..], t);
    }
  }

  /**
   No lost wake-up. A reader asleep on an empty wake channel has missed nothing: output past
   its offset, or a final status, exists only while the notification for it is in flight,
   and delivering that notification wakes the reader.
   */
  lemma NothingMissed(end: nat, after: int, steps: seq<Step>, s: State)
    requires Run(Initial(end, after), steps, s) && s.reader.pc == Asleep && !s.reader.wake
    ensures Unread(s) ==> OutputInFlight(s)
    ensures Final(s.sess.status) ==> s.statusCalls > 0
    ensures !s.sess.registered ==> s.statusCalls > 0 || s.sess.status == Closing
  {
    RunKeeps(Initial(end, after), steps, s);
  }

  /** Every notification in flight leads to a wake: after it is delivered the sleeping reader can run. */
  lemma DeliveryWakes(end: nat, after: int, steps: seq<Step>, s: State)
    requires Run(Initial(end, after), steps, s) && s.reader.pc == Asleep
    ensures s.pump == Appended ==>
      Enabled(Apply(Apply(s, Snapshot), CallHooks), Wake)
    ensures s.pump == Calling(true) ==> Enabled(Apply(s, CallHooks), Wake)
    ensures s.statusCalls > 0 ==> Enabled(Apply(s, CallStatusHook), Wake)
  {
    RunKeeps(Initial(end, after), steps, s);
  }

  /** What stays: the session has left the registry, or is closed. */
  predicate Lasting(s: State) { !s.sess.registered || s.sess.status == Closed }

  /** The reader has something to find and has not passed the place where it finds it. */
  predicate Looking(s: State) {
    match s.reader.pc
    case LoopGet => Unread(s) || Lasting(s)
    case LoopRead => Unread(s) || Lasting(s)
    case LoopCheck => Lasting(s)
    case Returned(_) => true
    case _ => false
  }

  lemma {:induction false} LookingStays(s: State, steps: seq<Step>, t: State)
    requires Looking(s) && Run(s, steps, t)
    ensures Looking(t)
    decreases |steps|
  {
    if steps != [] {
      LookingStays(Apply(s, steps[0]), steps[1..], t);
    }
  }

  /**
   A reader woken with unread output, or after the session closed or left the registry, does
   not fall asleep again, whatever is appended, removed or closed while it looks: until it
   returns it is on its way through the loop.
   */
  lemma WokenReaderReturns(end: nat, after: int, before: seq<Step>, s: State, steps: seq<Step>, t: State)
    requires Run(Initial(end, after), before, s) && Enabled(s, Wake) && (Unread(s) || Lasting(s))
    requires Run(Apply(s, Wake), steps, t)
    ensures t.reader.pc != Asleep && (InLoop(t.reader.pc) || t.reader.pc.Returned?)
  {
    LookingStays(Apply(s, Wake), steps, t);
  }

  // ---------------------------------------------------------------- what each read does

  /**
   Every action of the reader that is not a wait: it answers with output exactly when its
   read finds some, ends exactly when its check finds the session gone, closed or failed,
   answers not-found exactly when its lookup does, and gives up waiting only if not asked to
   wait. It falls asleep exactly when a check after both subscriptions finds nothing.
   */
  lemma ReadSays(s: State, wait: bool)
    requires Enabled(s, Read(wait))
    ensures
      var pc, t := s.reader.pc, Apply(s, Read(wait));
      var over := !s.sess.registered || s.sess.status == Closed || s.sess.status == Error;
      && t.sess == s.sess && t.pump == s.pump && t.statusCalls == s.statusCalls
      && t.reader.after == s.reader.after && t.reader.wake == s.reader.wake
      && (t.reader.outputHook <==> s.reader.outputHook || pc == SubscribeOutput)
      && (t.reader.statusHook <==> s.reader.statusHook || pc == SubscribeStatus)
      && (t.reader.pc == Returned(NotFound) <==> (pc == FirstGet || pc == LoopGet) && !s.sess.registered)
      && (t.reader.pc == Returned(GotOutput) <==> (pc == FirstRead || pc == LoopRead) && s.reader.after < s.sess.end)
      && (t.reader.pc == Returned(NoWait) <==> pc == FirstRead && s.sess.end <= s.reader.after && !wait)
      && (t.reader.pc == Returned(Ended) <==> (pc == FirstCheck || pc == LoopCheck) && over)
      && (t.reader.pc == Returned(TimedOut) <==> pc == LastRead)
      && (t.reader.pc == Asleep <==> pc == LoopCheck && !over)
  {
  }

  /** How a sleeping reader goes on: a wake empties the channel and looks again, a timeout reads once more. */
  lemma WaitSays(s: State, step: Step)
    requires Enabled(s, step) && (step == Wake || step == Timer || step == Cancel)
    ensures
      var t := Apply(s, step);
      && s.reader.pc == Asleep && t.sess == s.sess && t.pump == s.pump && t.statusCalls == s.statusCalls
      && t.reader == s.reader.(pc := t.reader.pc, wake := t.reader.wake)
      && (step == Wake ==> s.reader.wake && t.reader.pc == LoopGet && !t.reader.wake)
      && (step == Timer ==> t.reader.pc == LastRead)
      && (step == Cancel ==> t.reader.pc == Returned(ContextDone))
  {
  }

  ghost predicate Reaches(start: State, s: State) { exists steps :: Run(start, steps, s) }

  lemma {:induction false} RunSnoc(start: State, steps: seq<Step>, s: State, step: Step)
    requires Run(start, steps, s) && Enabled(s, step)
    ensures Run(start, steps + [step], Apply(s, step))
    decreases |steps|
  {
    if steps == [] {
      assert steps + [step] == [step] && [step][1..] == [];
    } else {
      RunSnoc(Apply(start, steps[0]), steps[1..], s, step);
      assert (steps + [step])[1..] == steps[1..] + [step];
    }
  }

  lemma Next(start: State, s: State, step: Step) returns (t: State)
    requires Reaches(start, s) && Enabled(s, step)
    ensures t == Apply(s, step) && Reaches(start, t)
  {
    var steps :| Run(start, steps, s);
    RunSnoc(start, steps, s, step);
    t := Apply(s, step);
  }

  /** A reader of an open session with nothing unread that is asked to wait comes to sleep, subscribed to both. */
  lemma ComesToSleep(end: nat, after: int) returns (s: State)
    requires end <= after
    ensures Reaches(Initial(end, after), s)
    ensures s == Initial(end, after).(reader := Reader(Asleep, after, true, true, false))
  {
    var start := Initial(end, after);
    assert Run(start, [], start);
    s := Next(start, start, Read(true));
    s := Next(start, s, Read(true));
    s := Next(start, s, Read(true));
    s := Next(start, s, Read(true));
    s := Next(start, s, Read(true));
    s := Next(start, s, Read(true));
    s := Next(start, s, Read(true));
    s := Next(start, s, Read(true));
  }

  /** Output that reaches past its offset wakes it, and it answers with output. */
  lemma OutputWakes(end: nat, after: int, n: nat) returns (s: State)
    requires end <= after < end + n
    ensures Reaches(Initial(end, after), s) && s.reader.pc == Returned(GotOutput)
  {
    var start := Initial(end, after);
    s := ComesToSleep(end, after);
    s := Next(start, s, Append(n));
    s := Next(start, s, Snapshot);
    s := Next(start, s, CallHooks);
    s := Next(start, s, Wake);
    s := Next(start, s, Read(true));
    s := Next(start, s, Read(true));
  }

  /** So does the end of the session, by way of any close or failure. */
  lemma EndWakes(end: nat, after: int, st: Status) returns (s: State)
    requires end <= after && (st == Closed || st == Error)
    ensures Reaches(Initial(end, after), s) && s.reader.pc == Returned(Ended)
  {
    var start := Initial(end, after);
    s := ComesToSleep(end, after);
    s := Next(start, s, SetStatus(st));
    s := Next(start, s, CallStatusHook);
    s := Next(start, s, Wake);
    s := Next(start, s, Read(true));
    s := Next(start, s, Read(true));
    s := Next(start, s, Read(true));
  }

  /** The status changes modelled here are those the session registry makes. */
  lemma LegalIsTheRegistrys(from: Status, to: Status)
    ensures Legal(from, to) <==>
      || (to == Closing && Sessions.MayClose(Sessions.Life(Sessions.Up(from), "", [])))
      || ((to == Closed || to == Error) && !Sessions.Absorbs(Sessions.Up(from), Sessions.Up(to)))
  {
  }

  /** What happens around the reader: bytes arrive, the status moves, and a removal clears the buffer. */
  lemma SessionStepsSay(s: State, n: nat, st: Status)
    ensures Enabled(s, Append(n)) ==> Apply(s, Append(n)).sess == s.sess.(end := s.sess.end + n)
    ensures Enabled(s, SetStatus(st)) ==> Apply(s, SetStatus(st)).sess == s.sess.(status := st)
    ensures Enabled(s, Remove) ==> !Apply(s, Remove).sess.registered && Apply(s, Remove).sess.end == 0
  {
  }
}
