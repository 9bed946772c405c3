/**
 The write-behind last-used tracker of internal/store/lastused.go. Any number of request
 handlers touch accounts while flushes and the closing flush race for the write lock; one
 step is one section under the map lock, one row written, or one move of the write lock.
 */
module LastUsed {
  import opened Common

  /** last_used_at per existing account; an account may never have been used. */
  type Table = map<string, Option<int>>

  /** The holder of the write lock: before its swap, or with what is left of its batch. */
  datatype Writer =
    | Free
    | Locked(closing: bool)
    | Writing(closing: bool, batch: map<string, int>)

  /** What the flusher keeps in memory. */
  datatype Memory = Memory(dirty: map<string, int>, closed: bool, writer: Writer)

  /**
   The run's history: the clock, what a tracker that wrote every accepted touch at once
   would have stored, the accounts whose newest write failed, the rows written so far, and
   whether a closing flush has returned.
   */
  datatype History = History(now: int, through: Table, lost: set<string>, writes: nat, done: bool)

  datatype State = State(mem: Memory, db: Table, h: History)

  function Initial(db: Table, now: int): State {
    State(Memory(map[], false, Free), db, History(now, db, {}, 0, false))
  }

  datatype Step = Touch(a: string, now: int) | Lock(closing: bool) | Swap | WriteOne(a: string, ok: bool) | Unlock

  predicate Enabled(s: State, step: Step) {
    match step
    case Touch(_, now) => now >= s.h.now
    case Lock(_) => s.mem.writer == Free
    case Swap => s.mem.writer.Locked?
    case WriteOne(a, _) => s.mem.writer.Writing? && a in s.mem.writer.batch
    case Unlock => s.mem.writer.Writing? && s.mem.writer.batch == map[]
  }

  /** UPDATE accounts SET last_used_at = ? WHERE id = ?: an absent account is no error. */
  function Stored(db: Table, a: string, ts: int): Table {
    if a in db then db[a := Some(ts)] else db
  }

  function DoTouch(s: State, a: string, now: int): State {
    if s.mem.closed then s.(h := s.h.(now := now))
    else State(s.mem.(dirty := s.mem.dirty[a := now]), s.db, s.h.(now := now, through := Stored(s.h.through, a, now)))
  }

  /** A flush that finds the tracker closed returns without a batch. */
  function SwapMemory(m: Memory): Memory
    requires m.writer.Locked?
  {
    if !m.writer.closing && m.closed then m.(writer := Free)
    else Memory(map[], m.closed || m.writer.closing, Writing(m.writer.closing, m.dirty))
  }

  function DoWrite(s: State, a: string, ok: bool): State
    requires Enabled(s, WriteOne(a, ok))
  {
    var batch := s.mem.writer.batch;
    var mem := s.mem.(writer := Writing(s.mem.writer.closing, batch - {a}));
    if ok then State(mem, Stored(s.db, a, batch[a]), s.h.(lost := s.h.lost - {a}, writes := s.h.writes + 1))
    else State(mem, s.db, s.h.(lost := s.h.lost + {a}, writes := s.h.writes + 1))
  }

  function Apply(s: State, step: Step): State
    requires Enabled(s, step)
  {
    match step
    case Touch(a, now) => DoTouch(s, a, now)
    case Lock(closing) => s.(mem := s.mem.(writer := Locked(closing)))
    case Swap => s.(mem := SwapMemory(s.mem))
    case WriteOne(a, ok) => DoWrite(s, a, ok)
    case Unlock => s.(mem := s.mem.(writer := Free), h := s.h.(done := s.h.done || s.mem.writer.closing))
  }

  ghost predicate Run(s: State, steps: seq<Step>, t: State)
    decreases |steps|
  {
    if steps == [] then s == t
    else Enabled(s, steps[0]) && Run(Apply(s, steps[0]), steps[1..], t)
  }

  // ---------------------------------------------------------------- the object

  /** The table after a batch, of which some rows fail to be written. */
  function Written(db: Table, batch: map<string, int>, fails: set<string>): (r: Table)
    ensures r.Keys == db.Keys
    ensures forall a :: a in db ==> r[a] == if a in batch && a !in fails then Some(batch[a]) else db[a]
  {
    map a | a in db :: if a in batch && a !in fails then Some(batch[a]) else db[a]
  }

  class LastUsedFlusher {
    var dirty: map<string, int>
    var closed: bool
    var db: Table

    constructor (db: Table)
      ensures dirty == map[] && !closed && this.db == db
    {
      dirty := map[];
      closed := false;
      this.db := db;
    }

    method TouchAccount(a: string, now: int)
      modifies this`dirty
      ensures dirty == if closed then old(dirty) else old(dirty)[a := now]
    {
      if closed {
        return;
      }
      dirty := dirty[a := now];
    }

    /** Rows go out one by one in no particular order; failures are passed over. */
    method Write(batch: map<string, int>, fails: set<string>)
      modifies this`db
      ensures db == Written(old(db), batch, fails)
    {
      var left := batch.Keys;
      while left != {}
        invariant left <= batch.Keys
        invariant db.Keys == old(db).Keys
        invariant forall a :: a in db ==>
          db[a] == if a in batch && a !in left && a !in fails then Some(batch[a]) else old(db)[a]
        decreases left
      {
        var a :| a in left;
        if a !in fails {
          db := Stored(db, a, batch[a]);
        }
        left := left - {a};
      }
    }

    method Flush(fails: set<string>)
      modifies this
      ensures closed == old(closed)
      ensures dirty == if closed then old(dirty) else map[]
      ensures db == if closed then old(db) else Written(old(db), old(dirty), fails)
    {
      if closed {
        return;
      }
      var batch := dirty;
      dirty := map[];
      Write(batch, fails);
    }

    method CloseAndFlush(fails: set<string>)
      modifies this
      ensures closed && dirty == map[] && db == Written(old(db), old(dirty), fails)
    {
      var batch := dirty;
      dirty := map[];
      closed := true;
      Write(batch, fails);
    }
  }

  // ---------------------------------------------------------------- invariant

  function BatchOf(w: Writer): map<string, int> { if w.Writing? then w.batch else map[] }

  /** What a reader that looks through dirty map and batch to the table sees. */
  function View(s: State, a: string): (v: Option<int>)
    requires a in s.db
  {
    var batch := BatchOf(s.mem.writer);
    if a in s.mem.dirty then Some(s.mem.dirty[a]) else if a in batch then Some(batch[a]) else s.db[a]
  }

  predicate NotAfter(v: Option<int>, t: int) { v.Some? ==> v.value <= t }

  /** Whatever is nearer to the table is not newer. */
  ghost predicate Layered(dirty: map<string, int>, batch: map<string, int>, db: Table, now: int) {
    && (forall a :: a in dirty ==> dirty[a] <= now)
    && (forall a :: a in batch ==> batch[a] <= now)
    && (forall a :: a in db ==> NotAfter(db[a], now))
    && (forall a :: a in dirty && a in batch ==> batch[a] <= dirty[a])
    && (forall a :: a in batch && a in db ==> NotAfter(db[a], batch[a]))
    && (forall a :: a in dirty && a in db ==> NotAfter(db[a], dirty[a]))
  }

  /** The view is the write-through table wherever no write was lost. */
  ghost predicate Refines(s: State) {
    && s.db.Keys == s.h.through.Keys
    && (forall a :: a in s.db && (a !in s.h.lost || a in s.mem.dirty || a in BatchOf(s.mem.writer)) ==>
          View(s, a) == s.h.through[a])
  }

  /** Once closed nothing is dirty, and only the closing flush still has a batch. */
  ghost predicate ClosedOk(m: Memory, done: bool) {
    && (m.closed ==> m.dirty == map[])
    && (done ==> m.closed && BatchOf(m.writer) == map[])
    && (m.writer.Writing? && m.writer.closing ==> m.closed)
    && (m.closed && !done ==> m.writer.Writing? && m.writer.closing)
  }

  ghost predicate Inv(s: State) {
    && Layered(s.mem.dirty, BatchOf(s.mem.writer), s.db, s.h.now)
    && Refines(s)
    && ClosedOk(s.mem, s.h.done)
  }

  lemma TouchKeeps(s: State, a: string, now: int)
    requires Inv(s) && Enabled(s, Touch(a, now))
    ensures Inv(DoTouch(s, a, now))
  {
  }

  lemma SwapKeeps(s: State)
    requires Inv(s) && Enabled(s, Swap)
    ensures Inv(Apply(s, Swap))
  {
  }

  lemma WriteKeeps(s: State, a: string, ok: bool)
    requires Inv(s) && Enabled(s, WriteOne(a, ok))
    ensures Inv(DoWrite(s, a, ok))
  {
  }

  lemma StepKeeps(s: State, step: Step)
    requires Inv(s) && Enabled(s, step)
    ensures Inv(Apply(s, step))
  {
    match step {
      case Touch(a, now) => TouchKeeps(s, a, now);
      case Lock(_) =>
      case Swap => SwapKeeps(s);
      case WriteOne(a, ok) => WriteKeeps(s, a, ok);
      case Unlock =>
    }
  }

  lemma {:induction false} RunKeeps(s: State, steps: seq<Step>, t: State)
    requires Inv(s) && Run(s, steps, t)
    ensures Inv(t)
    decreases |steps|
  {
    if steps != [] {
      StepKeeps(s, steps[0]);
      RunKeeps(Apply(s, steps[0]), steps[1..], t);
    }
  }

  // ---------------------------------------------------------------- theorems

  /** No timestamp in the table lies in the future. */
  ghost predicate Past(db: Table, now: int) { forall a :: a in db ==> NotAfter(db[a], now) }

  /** Looking through the layers is write-through, for every account whose newest write did not fail. */
  lemma RefinesWriteThrough(db: Table, now: int, steps: seq<Step>, s: State, a: string)
    requires Past(db, now) && Run(Initial(db, now), steps, s)
    requires a in s.db && a !in s.h.lost
    ensures a in s.h.through && View(s, a) == s.h.through[a]
  {
    RunKeeps(Initial(db, now), steps, s);
  }

  /** The stored value is present whenever it was, and not older. */
  predicate NotOlder(old_: Option<int>, new_: Option<int>) {
    old_.Some? ==> new_.Some? && old_.value <= new_.value
  }

  lemma {:induction false} NeverBackwards(s: State, steps: seq<Step>, t: State, a: string)
    requires Inv(s) && Run(s, steps, t) && a in s.db
    ensures a in t.db && NotOlder(s.db[a], t.db[a])
    decreases |steps|
  {
    if steps != [] {
      var u := Apply(s, steps[0]);
      StepKeeps(s, steps[0]);
      assert a in u.db && NotOlder(s.db[a], u.db[a]);
      NeverBackwards(u, steps[1..], t, a);
    }
  }

  /** Stored timestamps never go backwards and never disappear, failed writes or not. */
  lemma StoredNeverBackwards(db: Table, now: int, steps: seq<Step>, s: State, more: seq<Step>, t: State, a: string)
    requires Past(db, now) && Run(Initial(db, now), steps, s) && Run(s, more, t) && a in s.db
    ensures a in t.db && NotOlder(s.db[a], t.db[a])
  {
    RunKeeps(Initial(db, now), steps, s);
    NeverBackwards(s, more, t, a);
  }

  lemma {:induction false} ClosedForGood(s: State, steps: seq<Step>, t: State)
    requires Inv(s) && s.h.done && Run(s, steps, t)
    ensures t.h.done && t.h.writes == s.h.writes && t.db == s.db && t.h.through == s.h.through && t.mem.dirty == map[]
    decreases |steps|
  {
    if steps != [] {
      StepKeeps(s, steps[0]);
      ClosedForGood(Apply(s, steps[0]), steps[1..], t);
    }
  }

  /** Once a closing flush has returned, no step writes a row, stores a value or accepts a touch. */
  lemma NothingAfterClose(db: Table, now: int, steps: seq<Step>, s: State, more: seq<Step>, t: State)
    requires Past(db, now) && Run(Initial(db, now), steps, s) && s.h.done && Run(s, more, t)
    ensures t.h.writes == s.h.writes && t.db == s.db && t.h.through == s.h.through && t.mem.dirty == map[]
  {
    RunKeeps(Initial(db, now), steps, s);
    ClosedForGood(s, more, t);
  }

  /** The touches of a run made while the tracker was open. */
  function Accepted(s: State, steps: seq<Step>): seq<(string, int)>
    decreases |steps|
  {
    if steps == [] || !Enabled(s, steps[0]) then []
    else
      (if steps[0].Touch? && !s.mem.closed then [(steps[0].a, steps[0].now)] else [])
      + Accepted(Apply(s, steps[0]), steps[1..])
  }

  /** The time of the account's last touch, or what was stored when there was none. */
  function LastTouch(touches: seq<(string, int)>, a: string, stored: Option<int>): Option<int> {
    if touches == [] then stored
    else if touches[|touches| - 1].0 == a then Some(touches[|touches| - 1].1)
    else LastTouch(touches[..|touches| - 1], a, stored)
  }

  lemma {:induction false} LastTouchJoins(x: seq<(string, int)>, y: seq<(string, int)>, a: string, stored: Option<int>)
    ensures LastTouch(x + y, a, stored) == LastTouch(y, a, LastTouch(x, a, stored))
    decreases |y|
  {
    if y == [] {
      assert x + y == x;
    } else {
      assert (x + y)[..|x + y| - 1] == x + y[..|y| - 1];
      LastTouchJoins(x, y[..|y| - 1], a, stored);
    }
  }

  /** The write-through table holds each account's last accepted touch. */
  lemma {:induction false} ThroughIsLastTouch(s: State, steps: seq<Step>, t: State, a: string)
    requires Run(s, steps, t) && a in s.h.through
    ensures a in t.h.through && t.h.through[a] == LastTouch(Accepted(s, steps), a, s.h.through[a])
    decreases |steps|
  {
    if steps != [] {
      var u := Apply(s, steps[0]);
      var first := if steps[0].Touch? && !s.mem.closed then [(steps[0].a, steps[0].now)] else [];
      assert u.h.through[a] == LastTouch(first, a, s.h.through[a]) by {
        if first != [] { assert first[..0] == []; }
      }
      ThroughIsLastTouch(u, steps[1..], t, a);
      LastTouchJoins(first, Accepted(u, steps[1..]), a, s.h.through[a]);
    }
  }

  /**
   In every interleaving, from the moment a closing flush returns each account holds its
   last accepted touch (its old value if there was none), unless the database refused that
   very write; and no further row is ever written.
   */
  lemma CloseStoresAll(db: Table, now: int, steps: seq<Step>, s: State, more: seq<Step>, t: State, a: string)
    requires Past(db, now) && Run(Initial(db, now), steps, s) && s.h.done && Run(s, more, t)
    requires a in db && a !in s.h.lost
    ensures a in t.db && t.db[a] == LastTouch(Accepted(Initial(db, now), steps), a, db[a])
    ensures t.h.writes == s.h.writes && t.mem.dirty == map[]
  {
    RunKeeps(Initial(db, now), steps, s);
    ClosedForGood(s, more, t);
    ThroughIsLastTouch(Initial(db, now), steps, s, a);
  }

  // ---------------------------------------------------------------- the write loop as steps

  ghost predicate Reaches(s: State, t: State) { exists steps :: Run(s, steps, t) }

  lemma ThenStep(s: State, step: Step, t: State)
    requires Enabled(s, step) && Reaches(Apply(s, step), t)
    ensures Reaches(s, t)
  {
    var steps :| Run(Apply(s, step), steps, t);
    assert ([step] + steps)[1..] == steps;
    assert Run(s, [step] + steps, t);
  }

  lemma {:induction false} WrittenOne(db: Table, batch: map<string, int>, fails: set<string>, a: string)
    requires a in batch
    ensures |batch - {a}| < |batch|
    ensures Written(if a in fails then db else Stored(db, a, batch[a]), batch - {a}, fails) == Written(db, batch, fails)
  {
    assert (batch - {a}).Keys == batch.Keys - {a};
  }

  /** Left alone, a writer can finish its batch, and the table is then what the object's loop makes of it. */
  lemma {:induction false} BatchAlone(s: State, fails: set<string>) returns (t: State)
    requires s.mem.writer.Writing?
    ensures Reaches(s, t) && t.db == Written(s.db, s.mem.writer.batch, fails)
    ensures t.mem == s.mem.(writer := Writing(s.mem.writer.closing, map[]))
    decreases |s.mem.writer.batch|
  {
    var batch := s.mem.writer.batch;
    if batch == map[] {
      t := s;
      assert Run(s, [], s);
      assert Written(s.db, map[], fails) == s.db;
    } else {
      var a :| a in batch;
      var step := WriteOne(a, a !in fails);
      WrittenOne(s.db, batch, fails, a);
      t := BatchAlone(DoWrite(s, a, a !in fails), fails);
      ThenStep(s, step, t);
    }
  }

  lemma {:induction false} RunJoins(s: State, x: seq<Step>, u: State, y: seq<Step>, t: State)
    requires Run(s, x, u) && Run(u, y, t)
    ensures Run(s, x + y, t)
    decreases |x|
  {
    if x == [] {
      assert x + y == y;
    } else {
      assert (x + y)[1..] == x[1..] + y;
      RunJoins(Apply(s, x[0]), x[1..], u, y, t);
    }
  }

  lemma ThenReaches(s: State, u: State, t: State)
    requires Reaches(s, u) && Reaches(u, t)
    ensures Reaches(s, t)
  {
    var x :| Run(s, x, u);
    var y :| Run(u, y, t);
    RunJoins(s, x, u, y, t);
  }

  /** One step more. */
  lemma StepOn(s: State, u: State, step: Step) returns (t: State)
    requires Reaches(s, u) && Enabled(u, step)
    ensures t == Apply(u, step) && Reaches(s, t)
  {
    t := Apply(u, step);
    assert Run(t, [], t);
    ThenStep(u, step, t);
    ThenReaches(s, u, t);
  }

  /**
   A flush that runs alone does what the object's does: nothing once closed, else every dirty
   row is written but those that fail, and none stays dirty. The closing flush writes too,
   closes, and is then known to have returned.
   */
  lemma FlushAlone(s: State, closing: bool, fails: set<string>) returns (t: State)
    requires s.mem.writer == Free
    ensures Reaches(s, t) && t.mem.writer == Free && t.mem.closed == (s.mem.closed || closing)
    ensures s.mem.closed && !closing ==> t.db == s.db && t.mem.dirty == s.mem.dirty
    ensures !s.mem.closed || closing ==> t.db == Written(s.db, s.mem.dirty, fails) && t.mem.dirty == map[]
    ensures closing ==> t.h.done
  {
    assert Run(s, [], s);
    t := StepOn(s, s, Lock(closing));
    t := StepOn(s, t, Swap);
    if t.mem.writer.Writing? {
      var u := BatchAlone(t, fails);
      ThenReaches(s, t, u);
      t := StepOn(s, u, Unlock);
    }
  }

  /** A touch of an open tracker is what its account is seen to hold; after the close it changes nothing. */
  lemma TouchSays(s: State, a: string, now: int)
    requires Enabled(s, Touch(a, now)) && a in s.db
    ensures
      var t := Apply(s, Touch(a, now));
      && t.db == s.db && t.mem.writer == s.mem.writer
      && (if s.mem.closed then t.mem == s.mem else View(t, a) == Some(now) && t.mem.dirty == s.mem.dirty[a := now])
  {
  }
}
