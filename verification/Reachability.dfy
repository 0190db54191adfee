/** A handler that runs alone is one particular run of the whole system. */
module Reachability {
  import opened Domain
  import opened Protocol

  /** Some run of some installation leads to this state of the rows, the nodes and the bookkeeping. */
  ghost predicate Reachable(w: World) {
    exists clock, es :: Run(Fresh(clock), es).w == w
  }

  function Moves(tid: Id, fs: seq<Fate>): seq<Event> {
    seq(|fs|, i requires 0 <= i < |fs| => Move(tid, fs[i]))
  }

  lemma AloneStep(w: World, pc: Pc, fs: seq<Fate>, f: Fate)
    ensures Alone(w, pc, fs + [f]) == var o := Alone(w, pc, fs); if o.pc.None? then o else Next(o.world, o.pc.value, f)
  {
    hide Next;
    assert (fs + [f])[..|fs|] == fs;
  }

  lemma {:induction false} SoloRunIsARun(s: System, tid: Id, fs: seq<Fate>)
    requires tid in s.threads
    ensures var o := Alone(s.w, s.threads[tid], fs);
      Run(s, Moves(tid, fs)) == System(o.world, if o.pc.Some? then s.threads[tid := o.pc.value] else s.threads - {tid})
    decreases |fs|
  {
    if fs == [] {
      assert Moves(tid, fs) == [];
      assert s.threads[tid := s.threads[tid]] == s.threads;
    } else {
      var n := |fs| - 1;
      SoloRunIsARun(s, tid, fs[..n]);
      assert Moves(tid, fs) == Moves(tid, fs[..n]) + [Move(tid, fs[n])];
      RunStep(s, Moves(tid, fs[..n]), Move(tid, fs[n]));
      hide Next;
      var o := Alone(s.w, s.threads[tid], fs[..n]);
      if o.pc.Some? {
        var o' := Next(o.world, o.pc.value, fs[n]);
        assert s.threads[tid := o.pc.value] - {tid} == s.threads - {tid};
        if o'.pc.Some? { assert s.threads[tid := o.pc.value][tid := o'.pc.value] == s.threads[tid := o'.pc.value]; }
      }
    }
  }

  lemma {:induction false} RunsCompose(s: System, es: seq<Event>, more: seq<Event>)
    ensures Run(s, es + more) == Run(Run(s, es), more)
    decreases |more|
  {
    hide Apply;
    if more == [] {
      assert es + more == es;
    } else {
      var n := |more| - 1;
      RunsCompose(s, es, more[..n]);
      assert es + more == es + more[..n] + [more[n]];
      RunStep(s, es + more[..n], more[n]);
    }
  }

  /** Some thread id is free. */
  lemma {:induction false} FreeId(used: set<Id>) returns (tid: Id)
    ensures tid !in used && forall t | t in used :: t < tid
  {
    if used == {} {
      tid := 0;
    } else {
      var t :| t in used;
      var rest := FreeId(used - {t});
      assert forall u | u in used :: u == t || u in used - {t};
      tid := Max(rest, t + 1);
    }
  }

  /** What happens to a world when something outside all requests happens to it. */
  function Witnessing(w: World, e: Event): World {
    Apply(System(w, map[]), e).w
  }

  lemma WitnessingIsReachable(w: World, e: Event)
    requires Reachable(w) && !e.Move? && !e.Arrive?
    ensures Reachable(Witnessing(w, e))
  {
    var clock, es :| Run(Fresh(clock), es).w == w;
    RunStep(Fresh(clock), es, e);
    assert Run(Fresh(clock), es + [e]).w == Witnessing(w, e);
  }

  /** From a reachable state, serving a request to its end leads to a reachable state. */
  lemma ServingIsReachable(w: World, request: Pc, fs: seq<Fate>)
    requires Reachable(w) && IsRequest(request) && Alone(w, request, fs).pc.None?
    ensures Reachable(Alone(w, request, fs).world)
  {
    var clock, es :| Run(Fresh(clock), es).w == w;
    var s := Run(Fresh(clock), es);
    var tid := FreeId(s.threads.Keys);
    var arrive := Arrive(tid, request);
    RunStep(Fresh(clock), es, arrive);
    SoloRunIsARun(Apply(s, arrive), tid, fs);
    RunsCompose(Fresh(clock), es + [arrive], Moves(tid, fs));
    assert Run(Fresh(clock), es + [arrive] + Moves(tid, fs)).w == Alone(w, request, fs).world;
  }
}
