/**
 Runs of the TTL store over its reference list. The value of a put is the put's own number,
 so that every put can be told from every other. Beside the list runs a plain map that is
 never swept: puts, consumes, deletes and evictions change it, the passing of time does not.
 */
module EphemeralRuns {
  import opened Common
  import E = Ephemeral

  type Items = seq<E.Item<string, nat>>

  datatype Cfg = Cfg(ttl: int, cap: int)

  datatype Op = Put(k: string, ttl: int) | Get(k: string) | Consume(k: string) | Delete(k: string) | Sweep
  datatype Step = Step(op: Op, now: int)

  /**
   The list; the latest time seen; puts so far; when each key last entered the list; the
   unswept map; the puts whose values a Consume has handed out.
   */
  datatype State = State(items: Items, clock: int, puts: nat, since: map<string, nat>,
                         ref: map<string, E.Entry<nat>>, used: set<nat>)

  function Initial(now: int): State { State([], now, 0, map[], map[], {}) }

  function EntryOf(cfg: Cfg, s: State, ttl: int, now: int): E.Entry<nat> {
    E.Entry(s.puts, now + if ttl <= 0 then cfg.ttl else ttl)
  }

  /** The answer of a Get or a Consume; other operations answer nothing. */
  function AnswerOf(s: State, step: Step): Option<nat> {
    if step.op.Get? || step.op.Consume? then E.Answer(E.Find(s.items, step.op.k), step.now) else None
  }

  function DoPut(cfg: Cfg, s: State, k: string, ttl: int, now: int): State {
    var e := EntryOf(cfg, s, ttl, now);
    var evicts := E.Evicts(s.items, k, cfg.cap) && s.items != [];
    State(E.Put(s.items, k, e, cfg.cap), now, s.puts + 1,
          if E.Find(s.items, k).None? then s.since[k := s.puts] else s.since,
          (if evicts then s.ref - {s.items[0].key} else s.ref)[k := e], s.used)
  }

  function DoRemove(s: State, k: string, now: int): State {
    s.(items := E.Without(s.items, k), clock := now, ref := s.ref - {k})
  }

  function Apply(cfg: Cfg, s: State, step: Step): State {
    match step.op
    case Put(k, ttl) => DoPut(cfg, s, k, ttl, step.now)
    case Get(k) => s.(items := E.GetLeaves(s.items, k, step.now), clock := step.now)
    case Consume(k) =>
      var a := AnswerOf(s, step);
      DoRemove(s, k, step.now).(used := if a.Some? then s.used + {a.value} else s.used)
    case Delete(k) => DoRemove(s, k, step.now)
    case Sweep => s.(items := E.LiveOnly(s.items, step.now), clock := step.now)
  }

  /** Times are read under the lock, so they do not go back. */
  ghost predicate Run(cfg: Cfg, s: State, steps: seq<Step>, t: State)
    decreases |steps|
  {
    if steps == [] then s == t
    else steps[0].now >= s.clock && Run(cfg, Apply(cfg, s, steps[0]), steps[1..], t)
  }

  // ---------------------------------------------------------------- invariant

  /** Keys stand in the list in the order in which they entered it. */
  ghost predicate Ordered(l: Items, since: map<string, nat>, puts: nat) {
    && (forall i :: 0 <= i < |l| ==> l[i].key in since && since[l[i].key] < puts)
    && (forall i, j :: 0 <= i < j < |l| ==> since[l[i].key] < since[l[j].key])
  }

  /** The list is the unswept map without some entries that are over. */
  ghost predicate Agrees(l: Items, ref: map<string, E.Entry<nat>>, clock: int) {
    && (forall k :: E.Find(l, k).Some? ==> k in ref && ref[k] == E.Find(l, k).value)
    && (forall k :: k in ref && E.Find(l, k).None? ==> !E.Live(ref[k], clock))
  }

  /** Every stored value is one put's, that put was not consumed, and no two keys share it. */
  ghost predicate Unique(ref: map<string, E.Entry<nat>>, puts: nat, used: set<nat>) {
    && (forall k :: k in ref ==> ref[k].value < puts && ref[k].value !in used)
    && (forall k, j :: k in ref && j in ref && ref[k].value == ref[j].value ==> k == j)
    && (forall x :: x in used ==> x < puts)
  }

  ghost predicate Inv(cfg: Cfg, s: State) {
    && Ordered(s.items, s.since, s.puts)
    && Agrees(s.items, s.ref, s.clock)
    && Unique(s.ref, s.puts, s.used)
    && (cfg.cap > 0 ==> |s.items| <= cfg.cap)
  }

  // ---------------------------------------------------------------- lists

  lemma {:induction false} OrderedIsDistinct(l: Items, since: map<string, nat>, puts: nat)
    requires Ordered(l, since, puts)
    ensures E.Distinct(l)
  {
    forall i, j | 0 <= i < j < |l| ensures l[i].key != l[j].key {
      assert since[l[i].key] < since[l[j].key];
    }
  }

  lemma {:induction false} FindJoins(l: Items, r: Items, k: string)
    ensures E.Find(l + r, k) == if E.Find(l, k).Some? then E.Find(l, k) else E.Find(r, k)
  {
    if l == [] {
      assert l + r == r;
    } else {
      assert (l + r)[1..] == l[1..] + r;
      FindJoins(l[1..], r, k);
    }
  }

  lemma {:induction false} FindWithout(l: Items, k: string, j: string)
    requires E.Distinct(l)
    ensures E.Find(E.Without(l, k), j) == if j == k then None else E.Find(l, j)
  {
    if l != [] {
      if l[0].key == k {
        E.FindNone(l[1..], k);
      } else {
        FindWithout(l[1..], k, j);
      }
    }
  }

  lemma {:induction false} FindReplaced(l: Items, k: string, e: E.Entry<nat>, j: string)
    requires E.Find(l, k).Some?
    ensures E.Find(E.Replaced(l, k, e), j) == if j == k then Some(e) else E.Find(l, j)
  {
    if l[0].key != k {
      FindReplaced(l[1..], k, e, j);
    }
  }

  lemma {:induction false} FindLive(l: Items, now: int, k: string)
    requires E.Distinct(l)
    ensures E.Find(E.LiveOnly(l, now), k) ==
      if E.Find(l, k).Some? && E.Live(E.Find(l, k).value, now) then E.Find(l, k) else None
  {
    if l != [] {
      var n := |l| - 1;
      var last := if E.Live(l[n].entry, now) then [l[n]] else [];
      FindLive(l[..n], now, k);
      FindJoins(E.LiveOnly(l[..n], now), last, k);
      FindJoins(l[..n], [l[n]], k);
      E.FindNone(l[..n], k);
      assert l == l[..n] + [l[n]];
    }
  }

  lemma {:induction false} LiveOrdered(l: Items, now: int, since: map<string, nat>, puts: nat)
    requires Ordered(l, since, puts)
    ensures Ordered(E.LiveOnly(l, now), since, puts) && |E.LiveOnly(l, now)| <= |l|
    ensures forall x :: x in E.LiveOnly(l, now) ==> x in l
  {
    if l != [] {
      var n := |l| - 1;
      LiveOrdered(l[..n], now, since, puts);
      var r := E.LiveOnly(l[..n], now);
      forall i | 0 <= i < |r| ensures since[r[i].key] < since[l[n].key] {
        assert r[i] in l[..n];
      }
    }
  }

  lemma {:induction false} WithoutOrdered(l: Items, k: string, since: map<string, nat>, puts: nat)
    requires Ordered(l, since, puts)
    ensures Ordered(E.Without(l, k), since, puts) && |E.Without(l, k)| <= |l|
  {
    E.FindNone(l, k);
    if i :| 0 <= i < |l| && l[i].key == k {
      OrderedIsDistinct(l, since, puts);
      E.FindAt(l, k, i);
      var r := l[..i] + l[i + 1..];
      assert forall j :: 0 <= j < |r| ==> r[j] == if j < i then l[j] else l[j + 1];
    }
  }

  /** A known key keeps its place and every key its position. */
  lemma {:induction false} KeepsPlaces(l: Items, k: string, e: E.Entry<nat>)
    ensures |E.Replaced(l, k, e)| == |l|
    ensures forall i :: 0 <= i < |l| ==> E.Replaced(l, k, e)[i].key == l[i].key
  {
    if l != [] && l[0].key != k {
      KeepsPlaces(l[1..], k, e);
    }
  }

  // ---------------------------------------------------------------- steps

  lemma {:induction false} PutOrdered(cfg: Cfg, s: State, k: string, ttl: int, now: int)
    requires Inv(cfg, s)
    ensures
      var t := DoPut(cfg, s, k, ttl, now);
      Ordered(t.items, t.since, t.puts) && (cfg.cap > 0 ==> |t.items| <= cfg.cap)
  {
    E.FindNone(s.items, k);
    KeepsPlaces(s.items, k, EntryOf(cfg, s, ttl, now));
  }

  lemma {:induction false} PutFinds(cfg: Cfg, s: State, k: string, ttl: int, now: int, j: string)
    requires Inv(cfg, s)
    ensures
      var t := DoPut(cfg, s, k, ttl, now);
      E.Find(t.items, j) ==
        if j == k then Some(EntryOf(cfg, s, ttl, now))
        else if E.Evicts(s.items, k, cfg.cap) && s.items != [] && j == s.items[0].key then None
        else E.Find(s.items, j)
  {
    var e := EntryOf(cfg, s, ttl, now);
    if E.Find(s.items, k).Some? {
      FindReplaced(s.items, k, e, j);
    } else {
      FindJoins(s.items, [E.Item(k, e)], j);
      if E.Evicts(s.items, k, cfg.cap) {
        FindJoins(s.items[1..], [E.Item(k, e)], j);
        OrderedIsDistinct(s.items, s.since, s.puts);
        E.FindNone(s.items[1..], s.items[0].key);
      }
    }
  }

  lemma {:induction false} PutKeeps(cfg: Cfg, s: State, k: string, ttl: int, now: int)
    requires Inv(cfg, s) && now >= s.clock
    ensures Inv(cfg, DoPut(cfg, s, k, ttl, now))
  {
    PutOrdered(cfg, s, k, ttl, now);
    forall j ensures
      E.Find(DoPut(cfg, s, k, ttl, now).items, j) ==
        if j == k then Some(EntryOf(cfg, s, ttl, now))
        else if E.Evicts(s.items, k, cfg.cap) && s.items != [] && j == s.items[0].key then None
        else E.Find(s.items, j)
    {
      PutFinds(cfg, s, k, ttl, now, j);
    }
  }

  lemma {:induction false} RemoveKeeps(cfg: Cfg, s: State, k: string, now: int)
    requires Inv(cfg, s) && now >= s.clock
    ensures Inv(cfg, DoRemove(s, k, now))
  {
    OrderedIsDistinct(s.items, s.since, s.puts);
    WithoutOrdered(s.items, k, s.since, s.puts);
    forall j ensures E.Find(E.Without(s.items, k), j) == if j == k then None else E.Find(s.items, j) {
      FindWithout(s.items, k, j);
    }
  }

  lemma {:induction false} GetKeeps(cfg: Cfg, s: State, k: string, now: int)
    requires Inv(cfg, s) && now >= s.clock
    ensures Inv(cfg, Apply(cfg, s, Step(Get(k), now)))
  {
    OrderedIsDistinct(s.items, s.since, s.puts);
    WithoutOrdered(s.items, k, s.since, s.puts);
    forall j ensures E.Find(E.Without(s.items, k), j) == if j == k then None else E.Find(s.items, j) {
      FindWithout(s.items, k, j);
    }
  }

  lemma {:induction false} SweepKeeps(cfg: Cfg, s: State, now: int)
    requires Inv(cfg, s) && now >= s.clock
    ensures Inv(cfg, Apply(cfg, s, Step(Sweep, now)))
  {
    OrderedIsDistinct(s.items, s.since, s.puts);
    LiveOrdered(s.items, now, s.since, s.puts);
    forall j ensures E.Find(E.LiveOnly(s.items, now), j) ==
      if E.Find(s.items, j).Some? && E.Live(E.Find(s.items, j).value, now) then E.Find(s.items, j) else None
    {
      FindLive(s.items, now, j);
    }
  }

  lemma StepKeeps(cfg: Cfg, s: State, step: Step)
    requires Inv(cfg, s) && step.now >= s.clock
    ensures Inv(cfg, Apply(cfg, s, step))
  {
    match step.op {
      case Put(k, ttl) => PutKeeps(cfg, s, k, ttl, step.now);
      case Get(k) => GetKeeps(cfg, s, k, step.now);
      case Consume(k) => RemoveKeeps(cfg, s, k, step.now);
      case Delete(k) => RemoveKeeps(cfg, s, k, step.now);
      case Sweep => SweepKeeps(cfg, s, step.now);
    }
  }

  lemma {:induction false} RunKeeps(cfg: Cfg, s: State, steps: seq<Step>, t: State)
    requires Inv(cfg, s) && Run(cfg, s, steps, t)
    ensures Inv(cfg, t)
    decreases |steps|
  {
    if steps != [] {
      StepKeeps(cfg, s, steps[0]);
      RunKeeps(cfg, Apply(cfg, s, steps[0]), steps[1..], t);
    }
  }

  // ---------------------------------------------------------------- theorems

  /** In every reachable state the keys are distinct and a positive capacity is respected. */
  lemma NeverOverCapacity(cfg: Cfg, now: int, steps: seq<Step>, s: State)
    requires Run(cfg, Initial(now), steps, s)
    ensures E.Distinct(s.items) && (cfg.cap > 0 ==> |s.items| <= cfg.cap)
  {
    RunKeeps(cfg, Initial(now), steps, s);
    OrderedIsDistinct(s.items, s.since, s.puts);
  }

  /**
   A put that evicts takes out the stored key that entered first: every other stored key
   entered later and is still stored, unchanged. A put that does not evict loses nobody.
   */
  lemma EvictsTheOldest(cfg: Cfg, now: int, steps: seq<Step>, s: State, k: string, ttl: int, at: int, j: string)
    requires Run(cfg, Initial(now), steps, s) && j != k && E.Find(s.items, j).Some?
    ensures j in s.since
    ensures E.Find(DoPut(cfg, s, k, ttl, at).items, j).None? ==>
      && E.Find(s.items, k).None? && cfg.cap > 0 && |s.items| == cfg.cap
      && forall i :: E.Find(s.items, i).Some? && i != j ==> i in s.since && s.since[j] < s.since[i]
    ensures E.Find(DoPut(cfg, s, k, ttl, at).items, j).Some? ==>
      E.Find(DoPut(cfg, s, k, ttl, at).items, j) == E.Find(s.items, j)
  {
    RunKeeps(cfg, Initial(now), steps, s);
    PutFinds(cfg, s, k, ttl, at, j);
    forall i | E.Find(s.items, i).Some? ensures exists n :: 0 <= n < |s.items| && s.items[n].key == i {
      E.FindNone(s.items, i);
    }
  }

  /** Putting a known key again keeps its place in the queue for eviction, and everybody else's. */
  lemma AgainKeepsPlaces(cfg: Cfg, s: State, k: string, ttl: int, now: int)
    requires E.Find(s.items, k).Some?
    ensures
      var t := DoPut(cfg, s, k, ttl, now);
      |t.items| == |s.items| && forall i :: 0 <= i < |s.items| ==> t.items[i].key == s.items[i].key
  {
    KeepsPlaces(s.items, k, EntryOf(cfg, s, ttl, now));
  }

  /**
   Sweeps and lazy removals cannot be seen: every answer is that of the map nobody sweeps,
   looked up with the expiry of the last put.
   */
  lemma AnswersIgnoreSweeps(cfg: Cfg, now: int, steps: seq<Step>, s: State, k: string, at: int)
    requires Run(cfg, Initial(now), steps, s) && at >= s.clock
    ensures AnswerOf(s, Step(Get(k), at)) == if k in s.ref && s.ref[k].expires > at then Some(s.ref[k].value) else None
    ensures AnswerOf(s, Step(Consume(k), at)) == AnswerOf(s, Step(Get(k), at))
  {
    RunKeeps(cfg, Initial(now), steps, s);
  }

  /** Once a Consume has handed out a put's value, no later Get or Consume of any key returns it. */
  lemma ConsumedOnce(cfg: Cfg, now: int, steps: seq<Step>, s: State, c: Step, more: seq<Step>, t: State, step: Step)
    requires Run(cfg, Initial(now), steps, s) && c.op.Consume? && c.now >= s.clock && AnswerOf(s, c).Some?
    requires Run(cfg, Apply(cfg, s, c), more, t)
    ensures AnswerOf(t, step) != AnswerOf(s, c)
  {
    RunKeeps(cfg, Initial(now), steps, s);
    StepKeeps(cfg, s, c);
    RunKeeps(cfg, Apply(cfg, s, c), more, t);
    UsedGrows(cfg, Apply(cfg, s, c), more, t);
  }

  lemma {:induction false} UsedGrows(cfg: Cfg, s: State, steps: seq<Step>, t: State)
    requires Run(cfg, s, steps, t)
    ensures s.used <= t.used
    decreases |steps|
  {
    if steps != [] { UsedGrows(cfg, Apply(cfg, s, steps[0]), steps[1..], t); }
  }

  /** The step takes `k` out of the store or puts something else there: it names k, or it is a put that evicts k. */
  predicate Touches(cfg: Cfg, s: State, step: Step, k: string) {
    || (step.op.Put? && step.op.k == k) || (step.op.Consume? && step.op.k == k) || (step.op.Delete? && step.op.k == k)
    || (step.op.Put? && E.Evicts(s.items, step.op.k, cfg.cap) && s.items != [] && s.items[0].key == k)
  }

  ghost predicate LeftAlone(cfg: Cfg, s: State, steps: seq<Step>, k: string)
    decreases |steps|
  {
    steps == [] || (!Touches(cfg, s, steps[0], k) && LeftAlone(cfg, Apply(cfg, s, steps[0]), steps[1..], k))
  }

  lemma {:induction false} RefStands(cfg: Cfg, s: State, steps: seq<Step>, t: State, k: string)
    requires Run(cfg, s, steps, t) && LeftAlone(cfg, s, steps, k)
    ensures k in t.ref <==> k in s.ref
    ensures k in s.ref ==> t.ref[k] == s.ref[k]
    decreases |steps|
  {
    if steps != [] { RefStands(cfg, Apply(cfg, s, steps[0]), steps[1..], t, k); }
  }

  /**
   What a put is for: as long as its key is not put, consumed, deleted or evicted again, a
   Get or Consume answers with that put exactly while its lifetime lasts, which is the
   store's own when none is given, whatever sweeps and other keys do meanwhile.
   */
  lemma PutIsAnswered(cfg: Cfg, now: int, steps: seq<Step>, s: State, k: string, ttl: int, at: int,
                      more: seq<Step>, t: State, later: int)
    requires Run(cfg, Initial(now), steps, s) && at >= s.clock
    requires var u := Apply(cfg, s, Step(Put(k, ttl), at)); Run(cfg, u, more, t) && LeftAlone(cfg, u, more, k)
    requires later >= t.clock
    ensures
      var life := if ttl <= 0 then cfg.ttl else ttl;
      var answer := if later < at + life then Some(s.puts) else None;
      AnswerOf(t, Step(Get(k), later)) == answer && AnswerOf(t, Step(Consume(k), later)) == answer
  {
    var u := Apply(cfg, s, Step(Put(k, ttl), at));
    RunKeeps(cfg, Initial(now), steps, s);
    StepKeeps(cfg, s, Step(Put(k, ttl), at));
    RunKeeps(cfg, u, more, t);
    RefStands(cfg, u, more, t, k);
  }

  /** After a Consume or a Delete there is nothing to answer until the key is put again. */
  lemma GoneIsGone(cfg: Cfg, now: int, steps: seq<Step>, s: State, op: Op, at: int,
                   more: seq<Step>, t: State, later: int)
    requires Run(cfg, Initial(now), steps, s) && at >= s.clock && (op.Consume? || op.Delete?)
    requires var u := Apply(cfg, s, Step(op, at)); Run(cfg, u, more, t) && LeftAlone(cfg, u, more, op.k)
    requires later >= t.clock
    ensures AnswerOf(t, Step(Get(op.k), later)) == None
  {
    var u := Apply(cfg, s, Step(op, at));
    RunKeeps(cfg, Initial(now), steps, s);
    StepKeeps(cfg, s, Step(op, at));
    RunKeeps(cfg, u, more, t);
    RefStands(cfg, u, more, t, op.k);
  }

  /** A sweep takes out exactly what has expired and leaves the rest as it was. */
  lemma SweepSays(cfg: Cfg, now: int, steps: seq<Step>, s: State, at: int, k: string)
    requires Run(cfg, Initial(now), steps, s) && at >= s.clock
    ensures
      var found, left := E.Find(s.items, k), E.Find(Apply(cfg, s, Step(Sweep, at)).items, k);
      left == if found.Some? && found.value.expires <= at then None else found
  {
    RunKeeps(cfg, Initial(now), steps, s);
    OrderedIsDistinct(s.items, s.since, s.puts);
    FindLive(s.items, at, k);
  }
}
