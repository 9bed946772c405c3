/** A concrete run in which a first connection and a later one to the same server both get through. */
module HostKeyWitness {
  import opened Common
  import opened HostKeys

  lemma {:induction false} RunSnoc(start: State, steps: seq<Step>, s: State, step: Step)
    requires Run(start, steps, s) && Enabled(s, step)
    ensures Run(start, steps + [step], Apply(s, step))
    decreases |steps|
  {
    if steps == [] {
      assert steps + [step] == [step] && [step][1..] == [];
    } else {
      RunSnoc(Apply(start, steps[0]), steps[1..], s, step);
      assert (steps + [step])[1..] == steps[1..] + [step];
    }
  }

  ghost predicate Reachable(s: State) { exists steps :: Run(Initial(), steps, s) }

  lemma Next(s: State, step: Step) returns (t: State)
    requires Reachable(s) && Enabled(s, step)
    ensures t == Apply(s, step) && Reachable(t)
  {
    var steps :| Run(Initial(), steps, s);
    RunSnoc(Initial(), steps, s, step);
    t := Apply(s, step);
  }

  const At: Address := Address("host", 22)

  /** A human has approved the key the first connection observed; the endpoint has no pin yet. */
  lemma FirstIsApproved() returns (s: State)
    ensures Reachable(s) && s.rows == map["e" := Fresh(At)] && s.conns.Keys == {"c"}
    ensures s.conns["c"] == Conn("e", At, Handshaking, None, HostState(New, "key", false), Pinning("key"), None)
  {
    assert Run(Initial(), [], Initial());
    s := Next(Initial(), R("e", Insert(At)));
    s := Next(s, Dial("c", "e", At));
    s := Next(s, C("c", Lookup));
    s := Next(s, C("c", KeyExchange("key")));
    s := Next(s, C("c", SignStart));
    s := Next(s, C("c", SignApproved));
  }

  predicate Pinned(s: State) { "e" in s.rows && s.rows["e"].pin == Some(Pin(Sha256("key"), Some("key"))) }

  lemma FirstGetsThrough() returns (s: State)
    ensures Reachable(s) && s.conns.Keys == {"c"} && Pinned(s)
    ensures s.conns["c"].phase == Returned && s.conns["c"].hs.status == New
  {
    s := FirstIsApproved();
    s := Next(s, C("c", PinUpdate));
    s := Next(s, C("c", MarkPinned));
    s := Next(s, C("c", Establish));
  }

  /** The first connection is returned on a new key that its approval pinned, the second on the pin. */
  lemma BothGetThrough() returns (s: State)
    ensures Reachable(s) && Pinned(s) && "c" in s.conns && "d" in s.conns
    ensures s.conns["c"].phase == Returned && s.conns["c"].hs.status == New
    ensures s.conns["d"].phase == Returned && s.conns["d"].hs.status == Known
  {
    s := FirstGetsThrough();
    s := Next(s, Dial("d", "e", At));
    s := Next(s, C("d", Lookup));
    s := Next(s, C("d", KeyExchange("key")));
    s := Next(s, C("d", Establish));
  }
}
