/**
 The reference-counted keyed mutex of internal/hydra/cimd_resolver.go. Any number of
 goroutines lock and release any keys; one step is one critical section of the map lock
 or one move of an entry's own lock. Entries are heap objects: the map may forget one
 while a goroutine still holds it, and a new one may be made for the same key.
 */
module KeyedMutex {
  import opened Common

  /** keyedEntry: the reference count and the goroutine that holds its lock. */
  datatype Entry = Entry(refs: int, holder: Option<nat>)

  /** A goroutine inside lock or its release function, on the entry it was given. */
  datatype Pc =
    | Outside | Waiting(key: string, entry: nat) | Holding(key: string, entry: nat) | Leaving(key: string, entry: nat)

  datatype State = State(entries: map<string, nat>, heap: map<nat, Entry>, threads: map<nat, Pc>)

  function Initial(): State { State(map[], map[], map[]) }

  function PcOf(s: State, t: nat): Pc { if t in s.threads then s.threads[t] else Outside }

  datatype Step = Enter(t: nat, key: string, spare: nat) | Acquire(t: nat) | Unlock(t: nat) | Leave(t: nat)

  predicate Enabled(s: State, step: Step) {
    match step
    case Enter(t, _, spare) => PcOf(s, t) == Outside && spare !in s.heap
    case Acquire(t) =>
      var pc := PcOf(s, t);
      pc.Waiting? && pc.entry in s.heap && s.heap[pc.entry].holder == None
    case Unlock(t) => PcOf(s, t).Holding? && PcOf(s, t).entry in s.heap
    case Leave(t) => PcOf(s, t).Leaving? && PcOf(s, t).entry in s.heap
  }

  /** The first section of lock: find or make the key's entry and count a reference. */
  function DoEnter(s: State, t: nat, key: string, spare: nat): State {
    var e := if key in s.entries then s.entries[key] else spare;
    var was := if key in s.entries && e in s.heap then s.heap[e] else Entry(0, None);
    State(s.entries[key := e], s.heap[e := was.(refs := was.refs + 1)], s.threads[t := Waiting(key, e)])
  }

  function DoAcquire(s: State, t: nat): State
    requires Enabled(s, Acquire(t))
  {
    var Waiting(key, e) := PcOf(s, t);
    s.(heap := s.heap[e := s.heap[e].(holder := Some(t))], threads := s.threads[t := Holding(key, e)])
  }

  function DoUnlock(s: State, t: nat): State
    requires Enabled(s, Unlock(t))
  {
    var Holding(key, e) := PcOf(s, t);
    s.(heap := s.heap[e := s.heap[e].(holder := None)], threads := s.threads[t := Leaving(key, e)])
  }

  /** The last section of release: drop the reference, and the map entry with the last one. */
  function DoLeave(s: State, t: nat): State
    requires Enabled(s, Leave(t))
  {
    var Leaving(key, e) := PcOf(s, t);
    var refs := s.heap[e].refs - 1;
    State(if refs == 0 then s.entries - {key} else s.entries,
          s.heap[e := s.heap[e].(refs := refs)],
          s.threads[t := Outside])
  }

  function Apply(s: State, step: Step): State
    requires Enabled(s, step)
  {
    match step
    case Enter(t, key, spare) => DoEnter(s, t, key, spare)
    case Acquire(t) => DoAcquire(s, t)
    case Unlock(t) => DoUnlock(s, t)
    case Leave(t) => DoLeave(s, t)
  }

  ghost predicate Run(s: State, steps: seq<Step>, t: State)
    decreases |steps|
  {
    if steps == [] then s == t
    else Enabled(s, steps[0]) && Run(Apply(s, steps[0]), steps[1..], t)
  }

  // ---------------------------------------------------------------- the object

  class KeyedEntry {
    var refs: int

    constructor ()
      ensures refs == 0
    {
      refs := 0;
    }
  }

  /** The map under its lock: the two sections a lock and its release make of it. */
  class EntryTable {
    var entries: map<string, KeyedEntry>

    /** Entries are not shared between keys and each is referenced. */
    ghost predicate Valid()
      reads this, entries.Values
    {
      && (forall k :: k in entries ==> entries[k].refs > 0)
      && (forall k, l :: k in entries && l in entries && entries[k] == entries[l] ==> k == l)
    }

    constructor ()
      ensures Valid() && entries == map[]
    {
      entries := map[];
    }

    /** One more reference to the key's entry, which is made if nobody has it. */
    method Reference(key: string) returns (e: KeyedEntry)
      requires Valid()
      modifies this, entries.Values
      ensures Valid() && key in entries && entries[key] == e
      ensures key in old(entries) ==> entries == old(entries) && e.refs == old(e.refs) + 1
      ensures key !in old(entries) ==> fresh(e) && entries == old(entries)[key := e] && e.refs == 1
      ensures forall k :: k in old(entries) && k != key ==> old(entries)[k].refs == old(entries[k].refs)
    {
      if key in entries {
        e := entries[key];
      } else {
        e := new KeyedEntry();
        entries := entries[key := e];
      }
      e.refs := e.refs + 1;
    }

    /** One reference less; the last one takes the entry off the map. */
    method Release(key: string, e: KeyedEntry)
      requires Valid() && key in entries && entries[key] == e
      modifies this, e
      ensures Valid() && e.refs == old(e.refs) - 1
      ensures entries == if e.refs == 0 then old(entries) - {key} else old(entries)
    {
      e.refs := e.refs - 1;
      if e.refs == 0 {
        entries := entries - {key};
      }
    }
  }

  // ---------------------------------------------------------------- invariant

  predicate Inside(pc: Pc) { pc != Outside }

  /** The goroutines that hold a reference to an entry. */
  function Users(threads: map<nat, Pc>, e: nat): set<nat> {
    set t | t in threads && Inside(threads[t]) && threads[t].entry == e
  }

  ghost predicate ThreadsOk(s: State) {
    && (forall t :: t in s.threads && Inside(s.threads[t]) ==>
          s.threads[t].key in s.entries && s.entries[s.threads[t].key] == s.threads[t].entry)
    && (forall t :: t in s.threads && s.threads[t].Holding? ==>
          s.threads[t].entry in s.heap && s.heap[s.threads[t].entry].holder == Some(t))
  }

  ghost predicate EntriesOk(s: State) {
    && (forall k :: k in s.entries ==> s.entries[k] in s.heap)
    && (forall k, l :: k in s.entries && l in s.entries && s.entries[k] == s.entries[l] ==> k == l)
    && (forall e :: e in s.heap ==> s.heap[e].refs == |Users(s.threads, e)|)
    && (forall k :: k in s.entries ==> s.heap[s.entries[k]].refs > 0)
  }

  /** A lock taken is taken by someone who is still holding it. */
  ghost predicate HoldersOk(s: State) {
    forall e :: e in s.heap && s.heap[e].holder.Some? ==>
      var t := s.heap[e].holder.value;
      t in s.threads && s.threads[t].Holding? && s.threads[t].entry == e
  }

  ghost predicate Inv(s: State) { ThreadsOk(s) && EntriesOk(s) && HoldersOk(s) }

  lemma {:induction false} UsersJoin(threads: map<nat, Pc>, t: nat, pc: Pc, e: nat)
    requires t !in threads || threads[t] == Outside
    requires Inside(pc)
    ensures |Users(threads[t := pc], e)| == |Users(threads, e)| + (if pc.entry == e then 1 else 0)
  {
    if pc.entry == e {
      UsersJoinHere(threads, t, pc);
    } else {
      UsersJoinElsewhere(threads, t, pc, e);
    }
  }

  lemma {:induction false} UsersJoinHere(threads: map<nat, Pc>, t: nat, pc: Pc)
    requires t !in threads || threads[t] == Outside
    requires Inside(pc)
    ensures |Users(threads[t := pc], pc.entry)| == |Users(threads, pc.entry)| + 1
  {
    var before, after := Users(threads, pc.entry), Users(threads[t := pc], pc.entry);
    assert t !in before && after == before + {t};
  }

  lemma {:induction false} UsersJoinElsewhere(threads: map<nat, Pc>, t: nat, pc: Pc, e: nat)
    requires t !in threads || threads[t] == Outside
    requires Inside(pc) && pc.entry != e
    ensures Users(threads[t := pc], e) == Users(threads, e)
  {
  }

  lemma UsersMove(threads: map<nat, Pc>, t: nat, pc: Pc, e: nat)
    requires t in threads && Inside(threads[t]) && Inside(pc) && pc.entry == threads[t].entry
    ensures Users(threads[t := pc], e) == Users(threads, e)
  {
  }

  lemma UsersQuit(threads: map<nat, Pc>, t: nat, e: nat)
    requires t in threads && Inside(threads[t])
    ensures |Users(threads[t := Outside], e)| == |Users(threads, e)| - (if threads[t].entry == e then 1 else 0)
  {
    assert Users(threads[t := Outside], e) == Users(threads, e) - (if threads[t].entry == e then {t} else {});
    assert threads[t].entry == e ==> t in Users(threads, e);
  }

  /** An entry not on the heap has no users. */
  lemma NobodyOn(s: State, spare: nat)
    requires ThreadsOk(s) && EntriesOk(s) && spare !in s.heap
    ensures Users(s.threads, spare) == {}
  {
  }

  lemma EnterRefs(s: State, t: nat, key: string, spare: nat)
    requires ThreadsOk(s) && EntriesOk(s) && Enabled(s, Enter(t, key, spare))
    ensures EntriesOk(DoEnter(s, t, key, spare))
  {
    var u := DoEnter(s, t, key, spare);
    var e := u.entries[key];
    if key !in s.entries {
      NobodyOn(s, spare);
    }
    forall f | f in u.heap ensures u.heap[f].refs == |Users(u.threads, f)| {
      UsersJoin(s.threads, t, Waiting(key, e), f);
    }
  }

  lemma EnterThreads(s: State, t: nat, key: string, spare: nat)
    requires Inv(s) && Enabled(s, Enter(t, key, spare))
    ensures ThreadsOk(DoEnter(s, t, key, spare)) && HoldersOk(DoEnter(s, t, key, spare))
  {
  }

  lemma EnterKeeps(s: State, t: nat, key: string, spare: nat)
    requires Inv(s) && Enabled(s, Enter(t, key, spare))
    ensures Inv(DoEnter(s, t, key, spare))
  {
    EnterRefs(s, t, key, spare);
    EnterThreads(s, t, key, spare);
  }

  lemma AcquireKeeps(s: State, t: nat)
    requires Inv(s) && Enabled(s, Acquire(t))
    ensures Inv(DoAcquire(s, t))
  {
    var u := DoAcquire(s, t);
    forall f | f in u.heap ensures u.heap[f].refs == |Users(u.threads, f)| {
      UsersMove(s.threads, t, u.threads[t], f);
    }
  }

  lemma UnlockKeeps(s: State, t: nat)
    requires Inv(s) && Enabled(s, Unlock(t))
    ensures Inv(DoUnlock(s, t))
  {
    var u := DoUnlock(s, t);
    forall f | f in u.heap ensures u.heap[f].refs == |Users(u.threads, f)| {
      UsersMove(s.threads, t, u.threads[t], f);
    }
  }

  lemma LeaveRefs(s: State, t: nat)
    requires ThreadsOk(s) && EntriesOk(s) && Enabled(s, Leave(t))
    ensures EntriesOk(DoLeave(s, t))
  {
    var u := DoLeave(s, t);
    forall f | f in u.heap ensures u.heap[f].refs == |Users(u.threads, f)| {
      UsersQuit(s.threads, t, f);
    }
  }

  /** The last reference leaves nobody behind on the entry. */
  lemma LeaveThreads(s: State, t: nat)
    requires Enabled(s, Leave(t)) && ThreadsOk(s) && EntriesOk(s) && EntriesOk(DoLeave(s, t))
    ensures ThreadsOk(DoLeave(s, t))
  {
    var u := DoLeave(s, t);
    var Leaving(key, e) := PcOf(s, t);
    forall r | r in u.threads && Inside(u.threads[r])
      ensures u.threads[r].key in u.entries && u.entries[u.threads[r].key] == u.threads[r].entry
    {
      assert u.threads[r].entry == e ==> r in Users(u.threads, e);
    }
  }

  lemma LeaveHolders(s: State, t: nat)
    requires Enabled(s, Leave(t)) && HoldersOk(s)
    ensures HoldersOk(DoLeave(s, t))
  {
  }

  lemma LeaveKeeps(s: State, t: nat)
    requires Inv(s) && Enabled(s, Leave(t))
    ensures Inv(DoLeave(s, t))
  {
    LeaveRefs(s, t);
    LeaveThreads(s, t);
    LeaveHolders(s, t);
  }

  lemma {:induction false} RunKeeps(s: State, steps: seq<Step>, t: State)
    requires Inv(s) && Run(s, steps, t)
    ensures Inv(t)
    decreases |steps|
  {
    if steps != [] {
      match steps[0] {
        case Enter(r, key, spare) => EnterKeeps(s, r, key, spare);
        case Acquire(r) => AcquireKeeps(s, r);
        case Unlock(r) => UnlockKeeps(s, r);
        case Leave(r) => LeaveKeeps(s, r);
      }
      RunKeeps(Apply(s, steps[0]), steps[1..], t);
    }
  }

  // ---------------------------------------------------------------- theorems

  /** No two goroutines ever hold one key at once, however entries come and go. */
  lemma MutualExclusion(steps: seq<Step>, s: State, t: nat, r: nat)
    requires Run(Initial(), steps, s)
    requires PcOf(s, t).Holding? && PcOf(s, r).Holding? && PcOf(s, t).key == PcOf(s, r).key
    ensures t == r
  {
    RunKeeps(Initial(), steps, s);
  }

  /** An entry in the map counts exactly the goroutines waiting for, holding or releasing its key. */
  lemma RefsAreUsers(steps: seq<Step>, s: State, key: string)
    requires Run(Initial(), steps, s) && key in s.entries
    ensures s.entries[key] in s.heap
    ensures s.heap[s.entries[key]].refs == |set t | t in s.threads && Inside(s.threads[t]) && s.threads[t].key == key|
  {
    RunKeeps(Initial(), steps, s);
    assert Users(s.threads, s.entries[key]) ==
      set t | t in s.threads && Inside(s.threads[t]) && s.threads[t].key == key;
  }

  /** The map holds exactly the keys in flight, so it is empty when nobody is inside. */
  lemma MapIsInFlight(steps: seq<Step>, s: State)
    requires Run(Initial(), steps, s)
    ensures s.entries.Keys == set t | t in s.threads && Inside(s.threads[t]) :: s.threads[t].key
    ensures (forall t :: t in s.threads ==> s.threads[t] == Outside) ==> s.entries == map[]
  {
    RunKeeps(Initial(), steps, s);
    forall k | k in s.entries ensures exists t :: t in s.threads && Inside(s.threads[t]) && s.threads[t].key == k {
      var users := Users(s.threads, s.entries[k]);
      assert |users| > 0;
      var t :| t in users;
    }
  }

  /** The release function deletes by key, and that is always its own entry. */
  lemma ReleasesItsOwn(steps: seq<Step>, s: State, t: nat)
    requires Run(Initial(), steps, s) && PcOf(s, t).Leaving?
    ensures PcOf(s, t).key in s.entries && s.entries[PcOf(s, t).key] == PcOf(s, t).entry
  {
    RunKeeps(Initial(), steps, s);
  }

  /** A waiter is never stranded: its lock is free, or is held by a goroutine that is still inside with the same key. */
  lemma WaiterHasHolder(steps: seq<Step>, s: State, t: nat)
    requires Run(Initial(), steps, s) && PcOf(s, t).Waiting?
    ensures Enabled(s, Acquire(t)) ||
      exists r :: PcOf(s, r).Holding? && PcOf(s, r).key == PcOf(s, t).key && Enabled(s, Unlock(r))
  {
    RunKeeps(Initial(), steps, s);
    var e := PcOf(s, t).entry;
    if s.heap[e].holder.Some? {
      var r := s.heap[e].holder.value;
      assert PcOf(s, r).Holding? && PcOf(s, r).key == PcOf(s, t).key;
    }
  }

  /** One goroutine holds a key, another waits for it on the same entry, and the release lets it in. */
  lemma Contention() returns (held: State, passed: State)
    ensures exists steps :: Run(Initial(), steps, held)
    ensures PcOf(held, 1) == Holding("k", 7) && PcOf(held, 2) == Waiting("k", 7) && held.entries == map["k" := 7]
    ensures 7 in held.heap && held.heap[7].refs == 2
    ensures exists steps :: Run(held, steps, passed)
    ensures PcOf(passed, 1) == Outside && PcOf(passed, 2) == Holding("k", 7)
    ensures 7 in passed.heap && passed.heap[7].refs == 1
  {
    var s := Initial();
    var a := Apply(s, Enter(1, "k", 7));
    var b := Apply(a, Acquire(1));
    held := Apply(b, Enter(2, "k", 8));
    Chain(s, Enter(1, "k", 7), Acquire(1), Enter(2, "k", 8), held);
    var c := Apply(held, Unlock(1));
    var d := Apply(c, Acquire(2));
    passed := Apply(d, Leave(1));
    Chain(held, Unlock(1), Acquire(2), Leave(1), passed);
  }

  lemma Chain(s: State, x: Step, y: Step, z: Step, t: State)
    requires Enabled(s, x) && Enabled(Apply(s, x), y) && Enabled(Apply(Apply(s, x), y), z)
    requires t == Apply(Apply(Apply(s, x), y), z)
    ensures Run(s, [x, y, z], t)
  {
    var a, b := Apply(s, x), Apply(Apply(s, x), y);
    assert [z][1..] == [] && Run(t, [], t);
    assert Run(b, [z], t);
    assert [y, z][1..] == [z] && Run(a, [y, z], t);
    assert [x, y, z][1..] == [y, z];
  }
}
