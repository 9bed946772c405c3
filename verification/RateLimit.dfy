/**
 The fixed-window limiter of internal/ratelimit/ratelimit.go: one bucket per key, a capped
 bucket map, pruning at most once a second and arbitrary eviction when pruning did not help.
 Times and durations are nanoseconds.
 */
module RateLimit {
  import opened Common

  const MAX_BUCKETS: nat := 5000
  const SECOND: int := 1_000_000_000

  datatype Cfg = Cfg(max: int, window: int)
  datatype Bucket = Bucket(count: nat, start: int)

  /** The fields under the lock; nothing was pruned yet while lastPrune is None. */
  datatype Fields = Fields(buckets: map<string, Bucket>, lastPrune: Option<int>)

  datatype Answer = Answer(ok: bool, remaining: int, reset: int)

  /** The hit opens a new bucket: there is none, or its window is over. */
  predicate Opens(cfg: Cfg, l: Fields, key: string, now: int) {
    key !in l.buckets || now - l.buckets[key].start >= cfg.window
  }

  function Unexpired(cfg: Cfg, buckets: map<string, Bucket>, now: int): map<string, Bucket> {
    map k | k in buckets && now - buckets[k].start < cfg.window :: buckets[k]
  }

  /** A new key at capacity prunes, at most once a second. */
  predicate Prunes(l: Fields, key: string, now: int) {
    key !in l.buckets && |l.buckets| >= MAX_BUCKETS && (l.lastPrune.Some? ==> now - l.lastPrune.value >= SECOND)
  }

  function Pruned(cfg: Cfg, l: Fields, key: string, now: int): Fields {
    if Prunes(l, key, now) then Fields(Unexpired(cfg, l.buckets, now), Some(now)) else l
  }

  /** Still full: some bucket has to go. */
  predicate Evicts(cfg: Cfg, l: Fields, key: string, now: int) {
    key !in l.buckets && |Pruned(cfg, l, key, now).buckets| >= MAX_BUCKETS
  }

  predicate Legal(cfg: Cfg, l: Fields, key: string, now: int, victim: string) {
    Evicts(cfg, l, key, now) ==> victim in Pruned(cfg, l, key, now).buckets
  }

  function Roomed(cfg: Cfg, l: Fields, key: string, now: int, victim: string): Fields {
    var p := Pruned(cfg, l, key, now);
    if Evicts(cfg, l, key, now) then p.(buckets := p.buckets - {victim}) else p
  }

  /** The bucket the hit was counted in, after counting it. */
  function Counted(cfg: Cfg, l: Fields, key: string, now: int): Bucket {
    if Opens(cfg, l, key, now) then Bucket(1, now)
    else Bucket(l.buckets[key].count + 1, l.buckets[key].start)
  }

  /** One hit: the new fields. */
  function Next(cfg: Cfg, l: Fields, key: string, now: int, victim: string): Fields {
    var r := Roomed(cfg, l, key, now, victim);
    r.(buckets := r.buckets[key := Counted(cfg, l, key, now)])
  }

  // ---------------------------------------------------------------- the object

  class Limiter {
    const cfg: Cfg
    var buckets: map<string, Bucket>
    var lastPrune: Option<int>

    ghost function Now(): Fields
      reads this
    {
      Fields(buckets, lastPrune)
    }

    constructor (max: int, window: int)
      ensures cfg == Cfg(max, window) && Now() == Fields(map[], None)
    {
      cfg := Cfg(max, window);
      buckets := map[];
      lastPrune := None;
    }

    /** The prune loop: every bucket whose window is over goes. */
    method Prune(now: int)
      modifies this`buckets
      ensures buckets == Unexpired(cfg, old(buckets), now)
      ensures forall k :: k in buckets <==> k in old(buckets) && now - old(buckets)[k].start < cfg.window
      ensures forall k :: k in buckets ==> buckets[k] == old(buckets)[k]
    {
      var left := buckets.Keys;
      while left != {}
        invariant left <= old(buckets).Keys
        invariant buckets == map k |
          k in old(buckets) && (k in left || now - old(buckets)[k].start < cfg.window) :: old(buckets)[k]
        decreases left
      {
        var k :| k in left;
        if now - buckets[k].start >= cfg.window {
          buckets := buckets - {k};
        }
        left := left - {k};
      }
    }

    /** Makes room for a new key; the victim of an eviction is whichever key comes first. */
    method MakeRoom(key: string, now: int) returns (ghost victim: string)
      requires key !in buckets
      modifies this
      ensures Legal(cfg, old(Now()), key, now, victim)
      ensures Now() == Roomed(cfg, old(Now()), key, now, victim)
      ensures |old(buckets)| < 5000 ==> Now() == old(Now())
      ensures
        var due := old(lastPrune).None? || now - old(lastPrune).value >= 1_000_000_000;
        |old(buckets)| >= 5000 ==>
          && lastPrune == (if due then Some(now) else old(lastPrune))
          && (forall k :: k in buckets ==>
                k in old(buckets) && buckets[k] == old(buckets)[k] && (due ==> now - buckets[k].start < cfg.window))
          && (forall k :: k in old(buckets) && k !in buckets ==>
                k == victim || (due && now - old(buckets)[k].start >= cfg.window))
    {
      victim := "";
      if |buckets| >= MAX_BUCKETS {
        if lastPrune.None? || now - lastPrune.value >= SECOND {
          lastPrune := Some(now);
          Prune(now);
        }
        assert Now() == Pruned(cfg, old(Now()), key, now);
        if |buckets| >= MAX_BUCKETS {
          assert buckets.Keys != {};
          var k :| k in buckets;
          buckets := buckets - {k};
          victim := k;
        }
      }
    }

    /** max <= 0 switches the limiter off; otherwise the hit is the step Next. */
    method Allow(key: string, now: int) returns (answer: Answer, ghost victim: string)
      modifies this
      ensures cfg.max <= 0 ==> answer == Answer(true, 0, 0) && Now() == old(Now())
      ensures cfg.max > 0 ==>
        && Legal(cfg, old(Now()), key, now, victim)
        && Now() == Next(cfg, old(Now()), key, now, victim)
      ensures cfg.max > 0 ==>
        && key in buckets
        && (if key in old(buckets) && now - old(buckets)[key].start < cfg.window
            then buckets[key] == Bucket(old(buckets)[key].count + 1, old(buckets)[key].start)
            else buckets[key] == Bucket(1, now))
        && (answer.ok <==> buckets[key].count <= cfg.max)
        && answer.remaining == (if answer.ok then cfg.max - buckets[key].count else 0)
        && now + answer.reset == buckets[key].start + cfg.window
      ensures forall s: State :: cfg.max > 0 && s.l == old(Now()) ==>
        Apply(cfg, s, Hit(key, now, victim)).log[|s.log|].ok == answer.ok
    {
      victim := "";
      if cfg.max <= 0 {
        return Answer(true, 0, 0), victim;
      }
      var b: Bucket;
      if key !in buckets || now - buckets[key].start >= cfg.window {
        if key !in buckets {
          victim := MakeRoom(key, now);
        }
        b := Bucket(0, now);
      } else {
        b := buckets[key];
      }
      b := b.(count := b.count + 1);
      buckets := buckets[key := b];
      var remaining := cfg.max - b.count;
      if remaining < 0 { remaining := 0; }
      answer := Answer(b.count <= cfg.max, remaining, cfg.window - (now - b.start));
    }
  }

  // ---------------------------------------------------------------- runs

  /** One hit of a run: when it was, what it was answered, and the hit that opened its bucket. */
  datatype Rec = Rec(key: string, now: int, ok: bool, opener: nat, start: int)

  datatype Hit = Hit(key: string, now: int, victim: string)

  /** openers gives, per key seen, the number of the hit that opened its newest bucket. */
  datatype State = State(l: Fields, openers: map<string, nat>, log: seq<Rec>)

  function Initial(): State { State(Fields(map[], None), map[], []) }

  function OpenerOf(cfg: Cfg, s: State, h: Hit): nat {
    if Opens(cfg, s.l, h.key, h.now) || h.key !in s.openers then |s.log| else s.openers[h.key]
  }

  function RecOf(cfg: Cfg, s: State, h: Hit): Rec {
    var b := Counted(cfg, s.l, h.key, h.now);
    Rec(h.key, h.now, b.count <= cfg.max, OpenerOf(cfg, s, h), b.start)
  }

  function Apply(cfg: Cfg, s: State, h: Hit): State {
    State(Next(cfg, s.l, h.key, h.now, h.victim), s.openers[h.key := OpenerOf(cfg, s, h)], s.log + [RecOf(cfg, s, h)])
  }

  ghost predicate Run(cfg: Cfg, s: State, hits: seq<Hit>, t: State)
    decreases |hits|
  {
    if hits == [] then s == t
    else Legal(cfg, s.l, hits[0].key, hits[0].now, hits[0].victim) && Run(cfg, Apply(cfg, s, hits[0]), hits[1..], t)
  }

  /** The allowed hits of one bucket. */
  function OfBucket(log: seq<Rec>, opener: nat): nat {
    if log == [] then 0
    else OfBucket(log[..|log| - 1], opener) + (if log[|log| - 1].ok && log[|log| - 1].opener == opener then 1 else 0)
  }

  predicate Inside(r: Rec, key: string, from: int, window: int) {
    r.key == key && r.ok && from <= r.now < from + window
  }

  /** The allowed hits of a key in the interval [from, from + window). */
  function Within(log: seq<Rec>, key: string, from: int, window: int): nat {
    if log == [] then 0
    else Within(log[..|log| - 1], key, from, window) + (if Inside(log[|log| - 1], key, from, window) then 1 else 0)
  }

  // ---------------------------------------------------------------- every bucket and the map

  ghost predicate MapOk(l: Fields) { |l.buckets| <= MAX_BUCKETS }

  lemma RoomIsMade(cfg: Cfg, l: Fields, key: string, now: int, victim: string)
    requires MapOk(l) && Legal(cfg, l, key, now, victim)
    ensures MapOk(Next(cfg, l, key, now, victim))
  {
    var r := Roomed(cfg, l, key, now, victim).buckets;
    if key in l.buckets {
      assert r[key := Counted(cfg, l, key, now)].Keys == l.buckets.Keys;
    } else {
      RoomForOne(cfg, l, key, now, victim);
      assert r[key := Counted(cfg, l, key, now)].Keys == r.Keys + {key};
    }
  }

  lemma RoomForOne(cfg: Cfg, l: Fields, key: string, now: int, victim: string)
    requires MapOk(l) && Legal(cfg, l, key, now, victim) && key !in l.buckets
    ensures |Roomed(cfg, l, key, now, victim).buckets.Keys| < MAX_BUCKETS
  {
    UnexpiredShrinks(cfg, l.buckets, now);
    var p := Pruned(cfg, l, key, now).buckets;
    if Evicts(cfg, l, key, now) {
      assert (p - {victim}).Keys == p.Keys - {victim};
    }
  }

  lemma UnexpiredShrinks(cfg: Cfg, buckets: map<string, Bucket>, now: int)
    ensures |Unexpired(cfg, buckets, now)| <= |buckets|
  {
    SubsetSize(Unexpired(cfg, buckets, now).Keys, buckets.Keys);
  }

  /** Every bucket in the map counts at least the hits it allowed, and no two share an opener. */
  ghost predicate BucketsOk(l: Fields, openers: map<string, nat>, log: seq<Rec>) {
    && (forall k :: k in l.buckets ==>
          k in openers && openers[k] < |log| && OfBucket(log, openers[k]) <= l.buckets[k].count)
    && (forall k, j :: k in l.buckets && j in l.buckets && openers[k] == openers[j] ==> k == j)
  }

  ghost predicate CountsOk(cfg: Cfg, log: seq<Rec>) {
    && (forall i :: 0 <= i < |log| ==> log[i].opener <= i)
    && (forall id: nat :: OfBucket(log, id) <= cfg.max)
  }

  ghost predicate Inv(cfg: Cfg, s: State) {
    cfg.max > 0 && MapOk(s.l) && BucketsOk(s.l, s.openers, s.log) && CountsOk(cfg, s.log)
  }

  lemma {:induction false} NotYetOpened(log: seq<Rec>, id: nat)
    requires forall i :: 0 <= i < |log| ==> log[i].opener < id
    ensures OfBucket(log, id) == 0
  {
    if log != [] { NotYetOpened(log[..|log| - 1], id); }
  }

  lemma Appended(log: seq<Rec>, r: Rec, id: nat)
    ensures OfBucket(log + [r], id) == OfBucket(log, id) + (if r.ok && r.opener == id then 1 else 0)
  {
    assert (log + [r])[..|log|] == log;
  }

  lemma HitCounts(cfg: Cfg, s: State, h: Hit)
    requires Inv(cfg, s)
    ensures
      var t := Apply(cfg, s, h);
      CountsOk(cfg, t.log) && OfBucket(t.log, t.openers[h.key]) <= t.l.buckets[h.key].count
  {
    var r := RecOf(cfg, s, h);
    if r.opener == |s.log| { NotYetOpened(s.log, |s.log|); }
    forall id: nat ensures OfBucket(s.log + [r], id) <= cfg.max {
      Appended(s.log, r, id);
    }
    Appended(s.log, r, r.opener);
  }

  lemma HitBuckets(cfg: Cfg, s: State, h: Hit)
    requires Inv(cfg, s)
    ensures var t := Apply(cfg, s, h); BucketsOk(t.l, t.openers, t.log)
  {
    HitCounts(cfg, s, h);
    var t := Apply(cfg, s, h);
    forall k | k in t.l.buckets && k != h.key
      ensures k in s.l.buckets && t.l.buckets[k] == s.l.buckets[k]
      ensures OfBucket(t.log, t.openers[k]) <= t.l.buckets[k].count
      ensures t.openers[k] != t.openers[h.key]
    {
      Appended(s.log, RecOf(cfg, s, h), s.openers[k]);
    }
  }

  lemma {:induction false} RunKeeps(cfg: Cfg, s: State, hits: seq<Hit>, t: State)
    requires Inv(cfg, s) && Run(cfg, s, hits, t)
    ensures Inv(cfg, t)
    decreases |hits|
  {
    if hits != [] {
      RoomIsMade(cfg, s.l, hits[0].key, hits[0].now, hits[0].victim);
      HitCounts(cfg, s, hits[0]);
      HitBuckets(cfg, s, hits[0]);
      RunKeeps(cfg, Apply(cfg, s, hits[0]), hits[1..], t);
    }
  }

  lemma StartsOk(cfg: Cfg)
    requires cfg.max > 0
    ensures Inv(cfg, Initial())
  {
  }

  /**
   Whatever the times, the evictions and the keys: no bucket allows more than max, and the map
   stays within its cap.
   */
  lemma BucketBound(cfg: Cfg, hits: seq<Hit>, t: State, opener: nat)
    requires cfg.max > 0 && Run(cfg, Initial(), hits, t)
    ensures OfBucket(t.log, opener) <= cfg.max && |t.l.buckets| <= MAX_BUCKETS
  {
    StartsOk(cfg);
    RunKeeps(cfg, Initial(), hits, t);
  }

  // ---------------------------------------------------------------- one key over any interval

  /** A hit that finds its key's bucket gone comes after that bucket's window: the removal cost nothing. */
  predicate NotCutShort(cfg: Cfg, s: State, h: Hit) {
    h.key !in s.l.buckets && h.key in s.openers && s.openers[h.key] < |s.log| ==>
      h.now >= s.log[s.openers[h.key]].start + cfg.window
  }

  /** A hit counted in the bucket it finds is not older than the bucket. */
  predicate NotStale(cfg: Cfg, s: State, h: Hit) {
    !Opens(cfg, s.l, h.key, h.now) ==> h.now >= s.l.buckets[h.key].start
  }

  /** No window of the key was cut short by a prune or an eviction. */
  ghost predicate Undisturbed(cfg: Cfg, s: State, hits: seq<Hit>, key: string)
    decreases |hits|
  {
    hits == [] ||
    ((hits[0].key == key ==> NotCutShort(cfg, s, hits[0])) && Undisturbed(cfg, Apply(cfg, s, hits[0]), hits[1..], key))
  }

  /** No hit of the key entered the lock with a time from before the bucket it met there. */
  ghost predicate Timely(cfg: Cfg, s: State, hits: seq<Hit>, key: string)
    decreases |hits|
  {
    hits == [] ||
    ((hits[0].key == key ==> NotStale(cfg, s, hits[0])) && Timely(cfg, Apply(cfg, s, hits[0]), hits[1..], key))
  }

  /** An allowed hit lies in the window of its bucket, which its opener opened at its own time and passed. */
  ghost predicate RecOk(cfg: Cfg, log: seq<Rec>, r: Rec) {
    && (r.ok ==> r.start <= r.now < r.start + cfg.window)
    && r.opener < |log|
    && log[r.opener].key == r.key && log[r.opener].opener == r.opener && log[r.opener].ok
    && log[r.opener].now == r.start
  }

  ghost predicate LogOk(cfg: Cfg, log: seq<Rec>, key: string) {
    forall i :: 0 <= i < |log| && log[i].key == key ==> RecOk(cfg, log, log[i])
  }

  /** Same bucket, or windows that do not overlap. */
  predicate Apart(cfg: Cfg, r: Rec, q: Rec) {
    (r.opener == q.opener && r.start == q.start) || r.start + cfg.window <= q.start || q.start + cfg.window <= r.start
  }

  ghost predicate AllApart(cfg: Cfg, log: seq<Rec>, key: string) {
    forall i, j :: 0 <= i < |log| && 0 <= j < |log| && log[i].key == key && log[j].key == key ==>
      Apart(cfg, log[i], log[j])
  }

  /** The key's newest bucket, whether it is still in the map or not: every earlier window was over when it started. */
  ghost predicate NewestOk(cfg: Cfg, s: State, key: string) {
    if key in s.openers then
      && s.openers[key] < |s.log|
      && var o := s.log[s.openers[key]];
      && o.key == key && o.opener == s.openers[key] && o.ok && o.now == o.start
      && (key in s.l.buckets ==> s.l.buckets[key].start == o.start && s.l.buckets[key].count >= 1)
      && (forall i :: 0 <= i < |s.log| && s.log[i].key == key ==>
            (s.log[i].opener == s.openers[key] && s.log[i].start == o.start) || s.log[i].start + cfg.window <= o.start)
    else
      key !in s.l.buckets && forall i :: 0 <= i < |s.log| ==> s.log[i].key != key
  }

  ghost predicate KeyInv(cfg: Cfg, s: State, key: string) {
    cfg.max > 0 && cfg.window > 0 && LogOk(cfg, s.log, key) && AllApart(cfg, s.log, key) && NewestOk(cfg, s, key)
  }

  lemma OtherHit(cfg: Cfg, s: State, h: Hit, key: string)
    requires KeyInv(cfg, s, key) && h.key != key
    ensures KeyInv(cfg, Apply(cfg, s, h), key)
  {
    var t := Apply(cfg, s, h);
    assert forall i :: 0 <= i < |s.log| ==> t.log[i] == s.log[i];
    assert key in t.l.buckets ==> key in s.l.buckets && t.l.buckets[key] == s.l.buckets[key];
  }

  lemma OwnHit(cfg: Cfg, s: State, h: Hit)
    requires KeyInv(cfg, s, h.key) && NotCutShort(cfg, s, h) && (cfg.max == 1 || NotStale(cfg, s, h))
    ensures KeyInv(cfg, Apply(cfg, s, h), h.key)
  {
    var t := Apply(cfg, s, h);
    assert forall i :: 0 <= i < |s.log| ==> t.log[i] == s.log[i];
  }

  lemma {:induction false} KeyRun(cfg: Cfg, s: State, hits: seq<Hit>, t: State, key: string)
    requires KeyInv(cfg, s, key) && Run(cfg, s, hits, t)
    requires Undisturbed(cfg, s, hits, key) && (cfg.max == 1 || Timely(cfg, s, hits, key))
    ensures KeyInv(cfg, t, key)
    decreases |hits|
  {
    if hits != [] {
      if hits[0].key == key { OwnHit(cfg, s, hits[0]); } else { OtherHit(cfg, s, hits[0], key); }
      KeyRun(cfg, Apply(cfg, s, hits[0]), hits[1..], t, key);
    }
  }

  /**
   If all the interval's hits come from two buckets, they are at most what those allowed, less one
   that lies outside.
   */
  lemma {:induction false} TwoBuckets(log: seq<Rec>, key: string, from: int, window: int, a: nat, b: nat, skip: int)
    requires forall i :: 0 <= i < |log| && Inside(log[i], key, from, window) ==>
      log[i].opener == a || log[i].opener == b
    requires 0 <= skip < |log| ==> log[skip].ok && log[skip].opener == a && !Inside(log[skip], key, from, window)
    ensures Within(log, key, from, window) + (if 0 <= skip < |log| then 1 else 0) <= OfBucket(log, a) + OfBucket(log, b)
  {
    if log != [] { TwoBuckets(log[..|log| - 1], key, from, window, a, b, skip); }
  }

  lemma {:induction false} OneBucket(log: seq<Rec>, key: string, from: int, window: int, a: nat)
    requires forall i :: 0 <= i < |log| && Inside(log[i], key, from, window) ==> log[i].opener == a
    ensures Within(log, key, from, window) <= OfBucket(log, a)
  {
    if log != [] { OneBucket(log[..|log| - 1], key, from, window, a); }
  }

  /** Three buckets of one key cannot all have hits in one interval of the window's length. */
  lemma NoThird(cfg: Cfg, log: seq<Rec>, key: string, from: int, i: nat, j: nat, k: nat)
    requires cfg.window > 0 && LogOk(cfg, log, key) && AllApart(cfg, log, key)
    requires i < |log| && j < |log| && k < |log|
    requires Inside(log[i], key, from, cfg.window) && Inside(log[j], key, from, cfg.window) &&
        Inside(log[k], key, from, cfg.window)
    requires log[i].start < log[j].start
    ensures log[k].opener == log[i].opener || log[k].opener == log[j].opener
  {
    assert Apart(cfg, log[i], log[j]);
    assert Apart(cfg, log[i], log[k]);
    assert Apart(cfg, log[j], log[k]);
  }

  lemma SplitInterval(cfg: Cfg, log: seq<Rec>, key: string, from: int, i: nat, j: nat)
    requires cfg.window > 0 && LogOk(cfg, log, key) && AllApart(cfg, log, key) && CountsOk(cfg, log)
    requires i < |log| && j < |log| && Inside(log[i], key, from, cfg.window) && Inside(log[j], key, from, cfg.window)
    requires log[i].start < log[j].start
    ensures Within(log, key, from, cfg.window) <= 2 * cfg.max - 1
  {
    var a, b := log[i].opener, log[j].opener;
    forall k | 0 <= k < |log| && Inside(log[k], key, from, cfg.window)
      ensures log[k].opener == a || log[k].opener == b
    {
      NoThird(cfg, log, key, from, i, j, k);
    }
    assert Apart(cfg, log[i], log[j]);
    assert log[a].now < from;
    TwoBuckets(log, key, from, cfg.window, a, b, a);
    assert OfBucket(log, a) <= cfg.max && OfBucket(log, b) <= cfg.max;
  }

  lemma IntervalBound(cfg: Cfg, log: seq<Rec>, key: string, from: int)
    requires cfg.max > 0 && cfg.window > 0 && LogOk(cfg, log, key) && AllApart(cfg, log, key) && CountsOk(cfg, log)
    ensures Within(log, key, from, cfg.window) <= 2 * cfg.max - 1
  {
    if i :| 0 <= i < |log| && Inside(log[i], key, from, cfg.window) {
      if j :| 0 <= j < |log| && Inside(log[j], key, from, cfg.window) && log[j].opener != log[i].opener {
        assert Apart(cfg, log[i], log[j]);
        if log[i].start < log[j].start {
          SplitInterval(cfg, log, key, from, i, j);
        } else {
          SplitInterval(cfg, log, key, from, j, i);
        }
      } else {
        OneBucket(log, key, from, cfg.window, log[i].opener);
        assert OfBucket(log, log[i].opener) <= cfg.max;
      }
    } else {
      NoneInside(log, key, from, cfg.window);
    }
  }

  lemma {:induction false} NoneInside(log: seq<Rec>, key: string, from: int, window: int)
    requires forall i :: 0 <= i < |log| ==> !Inside(log[i], key, from, window)
    ensures Within(log, key, from, window) == 0
  {
    if log != [] { NoneInside(log[..|log| - 1], key, from, window); }
  }

  /**
   For a key none of whose windows was cut short and none of whose hits met a bucket younger
   than itself, no interval of one window's length sees more than 2 * max - 1 allowed hits,
   whatever the other keys and their clocks do: one fewer than twice the limit, because a
   bucket whose successor reaches into the interval was opened before it. With max 1 the
   second condition is not needed.
   */
  lemma WindowBound(cfg: Cfg, hits: seq<Hit>, t: State, key: string, from: int)
    requires cfg.max > 0 && Run(cfg, Initial(), hits, t)
    requires Undisturbed(cfg, Initial(), hits, key) && (cfg.max == 1 || Timely(cfg, Initial(), hits, key))
    ensures Within(t.log, key, from, cfg.window) <= 2 * cfg.max - 1
  {
    if cfg.window > 0 {
      StartsOk(cfg);
      RunKeeps(cfg, Initial(), hits, t);
      KeyRun(cfg, Initial(), hits, t, key);
      IntervalBound(cfg, t.log, key, from);
    } else {
      NoneInside(t.log, key, from, cfg.window);
    }
  }

  // ---------------------------------------------------------------- one client's times

  const K: string := "203.0.113.7"

  /** A limiter only one client talks to. */
  ghost predicate Only(s: State, b: Bucket) { s.l.buckets == map[K := b] && K in s.openers }

  function Recount(cfg: Cfg, b: Bucket, now: int): Bucket {
    if now - b.start >= cfg.window then Bucket(1, now) else Bucket(b.count + 1, b.start)
  }

  lemma AnotherHit(cfg: Cfg, s: State, b: Bucket, now: int, from: int)
    requires Only(s, b)
    ensures
      var t := Apply(cfg, s, Hit(K, now, ""));
      && Legal(cfg, s.l, K, now, "") && Only(t, Recount(cfg, b, now))
      && Within(t.log, K, from, cfg.window) == Within(s.log, K, from, cfg.window)
         + (if Recount(cfg, b, now).count <= cfg.max && from <= now < from + cfg.window then 1 else 0)
  {
    var t := Apply(cfg, s, Hit(K, now, ""));
    assert t.log[..|s.log|] == s.log;
  }

  lemma FirstHit(cfg: Cfg, now: int, from: int)
    requires cfg.max > 0
    ensures
      var t := Apply(cfg, Initial(), Hit(K, now, ""));
      && Legal(cfg, Initial().l, K, now, "") && Only(t, Bucket(1, now))
      && Within(t.log, K, from, cfg.window) == if from <= now < from + cfg.window then 1 else 0
  {
    var t := Apply(cfg, Initial(), Hit(K, now, ""));
    assert t.log == [t.log[0]] && t.log[..0] == [];
  }

  function Hits(nows: seq<int>): seq<Hit> { seq(|nows|, i requires 0 <= i < |nows| => Hit(K, nows[i], "")) }

  /** What one client's hits add to the count of an interval, from a given bucket on. */
  function Replay(cfg: Cfg, b: Bucket, nows: seq<int>, from: int): nat
    decreases |nows|
  {
    if nows == [] then 0
    else
      var c := Recount(cfg, b, nows[0]);
      (if c.count <= cfg.max && from <= nows[0] < from + cfg.window then 1 else 0) + Replay(cfg, c, nows[1..], from)
  }

  predicate Rising(nows: seq<int>) { forall i, j :: 0 <= i < j < |nows| ==> nows[i] <= nows[j] }

  lemma {:induction false} Replays(cfg: Cfg, s: State, b: Bucket, nows: seq<int>, from: int) returns (t: State)
    requires Only(s, b)
    ensures Run(cfg, s, Hits(nows), t) && Undisturbed(cfg, s, Hits(nows), K)
    ensures Within(t.log, K, from, cfg.window) == Within(s.log, K, from, cfg.window) + Replay(cfg, b, nows, from)
    ensures Rising([b.start] + nows) ==> Timely(cfg, s, Hits(nows), K)
    decreases |nows|
  {
    if nows == [] {
      t := s;
    } else {
      AnotherHit(cfg, s, b, nows[0], from);
      var c := Recount(cfg, b, nows[0]);
      t := Replays(cfg, Apply(cfg, s, Hits(nows)[0]), c, nows[1..], from);
      assert Hits(nows)[1..] == Hits(nows[1..]);
      if Rising([b.start] + nows) { RisingTail(b.start, nows, c.start); }
    }
  }

  lemma RisingTail(start: int, nows: seq<int>, next: int)
    requires nows != [] && Rising([start] + nows) && (next == start || next == nows[0])
    ensures Rising([next] + nows[1..]) && start <= nows[0]
  {
    var all, rest := [start] + nows, [next] + nows[1..];
    assert all[0] == start && all[1] == nows[0];
    forall i, j | 0 <= i < j < |rest| ensures rest[i] <= rest[j] {
      assert rest[j] == all[j + 1] && (i > 0 ==> rest[i] == all[i + 1]);
      assert all[0] <= all[j + 1] && all[1] <= all[j + 1] && (i > 0 ==> all[i + 1] <= all[j + 1]);
    }
  }

  /** The run of one client whose first hit is at `first`. */
  lemma ClientRun(cfg: Cfg, first: int, nows: seq<int>, from: int) returns (t: State)
    requires cfg.max > 0
    ensures Run(cfg, Initial(), Hits([first] + nows), t) && Undisturbed(cfg, Initial(), Hits([first] + nows), K)
    ensures Within(t.log, K, from, cfg.window) ==
      (if from <= first < from + cfg.window then 1 else 0) + Replay(cfg, Bucket(1, first), nows, from)
    ensures Rising([first] + nows) ==> Timely(cfg, Initial(), Hits([first] + nows), K)
  {
    FirstHit(cfg, first, from);
    var s := Apply(cfg, Initial(), Hit(K, first, ""));
    t := Replays(cfg, s, Bucket(1, first), nows, from);
    assert Hits([first] + nows)[1..] == Hits(nows);
  }

  // ---------------------------------------------------------------- the bound is reached

  function Times(n: nat, now: int): seq<int> { seq(n, i => now) }

  /** Hits at one time inside the bucket's window and the interval are allowed up to the limit. */
  lemma {:induction false} SameTime(cfg: Cfg, b: Bucket, n: nat, now: int, more: seq<int>, from: int)
    requires now - b.start < cfg.window && b.count + n <= cfg.max && from <= now < from + cfg.window
    ensures Replay(cfg, b, Times(n, now) + more, from) == n + Replay(cfg, Bucket(b.count + n, b.start), more, from)
    decreases n
  {
    if n == 0 {
      assert Times(n, now) + more == more;
    } else {
      assert (Times(n, now) + more)[1..] == Times(n - 1, now) + more;
      SameTime(cfg, Recount(cfg, b, now), n - 1, now, more, from);
    }
  }

  /** The times of one client that uses up a window at its very end and the next at its start. */
  function BusyTimes(cfg: Cfg): seq<int>
    requires cfg.max > 0
  {
    Times(cfg.max - 1, cfg.window - 1) + ([cfg.window] + (Times(cfg.max - 1, cfg.window) + []))
  }

  lemma BusyReplay(cfg: Cfg)
    requires cfg.max > 0 && cfg.window > 1
    ensures Replay(cfg, Bucket(1, 0), BusyTimes(cfg), cfg.window - 1) == 2 * cfg.max - 1
  {
    var w, from := cfg.window, cfg.window - 1;
    var second := Times(cfg.max - 1, w) + [];
    SameTime(cfg, Bucket(1, 0), cfg.max - 1, w - 1, [w] + second, from);
    assert ([w] + second)[1..] == second;
    SameTime(cfg, Bucket(1, w), cfg.max - 1, w, [], from);
  }

  /** 2 * max - 1 is the exact bound: for every limit and every window of more than one tick it is reached, in order. */
  lemma BoundIsReached(cfg: Cfg) returns (hits: seq<Hit>, t: State)
    requires cfg.max > 0 && cfg.window > 1
    ensures Run(cfg, Initial(), hits, t) && Undisturbed(cfg, Initial(), hits, K) && Timely(cfg, Initial(), hits, K)
    ensures Within(t.log, K, cfg.window - 1, cfg.window) == 2 * cfg.max - 1
  {
    var nows := BusyTimes(cfg);
    t := ClientRun(cfg, 0, nows, cfg.window - 1);
    hits := Hits([0] + nows);
    BusyReplay(cfg);
    assert Rising([0] + nows);
  }

  // ---------------------------------------------------------------- stale times

  /** New windows opened one after the other, each followed by a hit that brings the time 0 into the lock. */
  function StaleTimes(window: int, start: int, n: nat): seq<int>
    decreases n
  {
    if n == 0 then [] else [start + window, 0] + StaleTimes(window, start + window, n - 1)
  }

  lemma {:induction false} StaleReplay(cfg: Cfg, b: Bucket, n: nat)
    requires cfg.max >= 2 && cfg.window > 0 && b.start >= 0
    ensures Replay(cfg, b, StaleTimes(cfg.window, b.start, n), 0) == n
    decreases n
  {
    if n > 0 {
      var nows, next := StaleTimes(cfg.window, b.start, n), b.start + cfg.window;
      var rest := StaleTimes(cfg.window, next, n - 1);
      assert nows[1..] == [0] + rest && ([0] + rest)[1..] == rest;
      StaleReplay(cfg, Bucket(2, next), n - 1);
    }
  }

  /**
   The clock is read before the lock is taken, and a hit that enters the lock with an old time
   is counted in the bucket of the moment. So for every limit from 2 on, one client whose
   bucket is never removed can have any number of hits allowed within one window.
   */
  lemma StaleTimesBreakAnyBound(cfg: Cfg, n: nat) returns (hits: seq<Hit>, t: State)
    requires cfg.max >= 2 && cfg.window > 0
    ensures Run(cfg, Initial(), hits, t) && Undisturbed(cfg, Initial(), hits, K)
    ensures Within(t.log, K, 0, cfg.window) > n
  {
    var nows := StaleTimes(cfg.window, 0, n);
    t := ClientRun(cfg, 0, nows, 0);
    hits := Hits([0] + nows);
    StaleReplay(cfg, Bucket(1, 0), n);
  }

  /**
   The bound holds of every run that cuts none of the key's windows short, whatever times its hits
   bring into the lock.
   */
  ghost predicate SurvivesStaleTimes(cfg: Cfg) {
    forall hits, t, key, from: int :: Run(cfg, Initial(), hits, t) && Undisturbed(cfg, Initial(), hits, key) ==>
      Within(t.log, key, from, cfg.window) <= 2 * cfg.max - 1
  }

  /** Exactly when stale times do no harm: when the limit is 1. */
  lemma SurvivesExactlyWhen(cfg: Cfg)
    requires cfg.max > 0 && cfg.window > 0
    ensures SurvivesStaleTimes(cfg) <==> cfg.max == 1
  {
    if cfg.max == 1 {
      forall hits, t, key, from: int | Run(cfg, Initial(), hits, t) && Undisturbed(cfg, Initial(), hits, key)
        ensures Within(t.log, key, from, cfg.window) <= 2 * cfg.max - 1
      {
        WindowBound(cfg, hits, t, key, from);
      }
    } else {
      var hits, t := StaleTimesBreakAnyBound(cfg, 2 * cfg.max - 1);
    }
  }
}
