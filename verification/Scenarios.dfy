/** Runs in which every statement and call succeeds, as witnesses of states that can be reached. */
module Scenarios {
  import opened Domain
  import opened Database
  import opened Protocol
  import opened Reachability

  /** No step of the run fails. */
  predicate Smooth(es: seq<Event>) {
    forall e | e in es && e.Move? :: e.fate.db && e.fate.reply == Done
  }

  predicate Fortunate(fs: seq<Fate>) { forall f | f in fs :: f.db && f.reply == Done }

  /** One customer, one plan and one node. */
  function Setting(days: int): DB { DB(map[1 := "active"], map[2 := Plan(100, days)], {3}, map[], map[]) }

  lemma Then(s0: System, es: seq<Event>, e: Event) returns (es': seq<Event>, s': System)
    ensures es' == es + [e] && s' == Run(s0, es') == Apply(Run(s0, es), e)
  {
    es' := es + [e];
    s' := Run(s0, es');
    RunStep(s0, es, e);
  }

  lemma SetUp(clock: int, days: int) returns (es: seq<Event>, s: System)
    requires days > 0
    ensures s == Run(Fresh(clock), es) && Smooth(es)
    ensures s.w.clock == clock && s.w.db == Setting(days) && s.threads == map[]
  {
    assert Run(Fresh(clock), []) == Fresh(clock);
    var s0 := Fresh(clock);
    assert s0.w.db == DB(map[], map[], {}, map[], map[]) && s0.w.next == 1 && s0.w.clock == clock
        && s0.threads == map[];
    hide Run, Fresh, Apply;
    var h1, s1 := Then(s0, [], AddCustomer);
    AddingCustomer(s0);
    var h2, s2 := Then(s0, h1, AddPlan(Plan(100, days)));
    AddingPlan(s1, Plan(100, days));
    es, s := Then(s0, h2, AddNode);
    AddingNode(s2);
  }

  lemma AddingCustomer(s: System)
    ensures Apply(s, AddCustomer)
            == s.(w := s.w.(db := s.w.db.(customers := s.w.db.customers[s.w.next := "active"]), next := s.w.next + 1))
  {}

  lemma AddingPlan(s: System, plan: Plan)
    requires plan.quota > 0 && plan.days > 0
    ensures Apply(s, AddPlan(plan))
            == s.(w := s.w.(db := s.w.db.(plans := s.w.db.plans[s.w.next := plan]), next := s.w.next + 1))
  {}

  lemma AddingNode(s: System)
    ensures Apply(s, AddNode) == s.(w := s.w.(db := s.w.db.(nodes := s.w.db.nodes + {s.w.next}), next := s.w.next + 1))
  {}

  /** A thread takes the given steps. */
  lemma Proceed(s0: System, es: seq<Event>, tid: Id, fs: seq<Fate>) returns (es': seq<Event>, s': System)
    requires tid in Run(s0, es).threads
    ensures var s := Run(s0, es); var o := Alone(s.w, s.threads[tid], fs);
      s' == Run(s0, es') == System(o.world, if o.pc.Some? then s.threads[tid := o.pc.value] else s.threads - {tid})
    ensures Smooth(es) && Fortunate(fs) ==> Smooth(es')
  {
    hide Apply, Next;
    SoloRunIsARun(Run(s0, es), tid, fs);
    RunsCompose(s0, es, Moves(tid, fs));
    es' := es + Moves(tid, fs);
    s' := Run(s0, es');
  }

  /** A request arrives and takes the given steps. */
  lemma Enter(s0: System, es: seq<Event>, tid: Id, request: Pc, fs: seq<Fate>) returns (es': seq<Event>, s': System)
    requires tid !in Run(s0, es).threads && IsRequest(request)
    ensures var s := Run(s0, es); var o := Alone(s.w, request, fs);
      s' == Run(s0, es') == System(o.world, if o.pc.Some? then s.threads[tid := o.pc.value] else s.threads)
    ensures Smooth(es) && Fortunate(fs) ==> Smooth(es')
  {
    var s := Run(s0, es);
    var h, s1 := Then(s0, es, Arrive(tid, request));
    assert s1 == s.(threads := s.threads[tid := request]);
    hide Apply, Next;
    es', s' := Proceed(s0, h, tid, fs);
    var o := Alone(s.w, request, fs);
    assert s.threads[tid := request] - {tid} == s.threads;
    if o.pc.Some? { assert s.threads[tid := request][tid := o.pc.value] == s.threads[tid := o.pc.value]; }
  }

  // ---------- handlers that meet no failure ----------

  /** The fates of n steps. */
  function Lucky(n: nat): (fs: seq<Fate>)
    ensures |fs| == n && Fortunate(fs)
  {
    seq(n, _ => FINE)
  }

  lemma AloneAtFirst(w: World, pc0: Pc)
    ensures Alone(w, pc0, Lucky(0)) == Outcome(w, Some(pc0))
  {
    assert Lucky(0) == [];
  }

  lemma AloneOn(w: World, pc0: Pc, n: nat, w1: World, pc1: Pc)
    requires Alone(w, pc0, Lucky(n)) == Outcome(w1, Some(pc1))
    ensures Alone(w, pc0, Lucky(n + 1)) == Next(w1, pc1, FINE)
  {
    assert Lucky(n + 1) == Lucky(n) + [FINE];
    AloneStep(w, pc0, Lucky(n), FINE);
    hide Next;
  }

  /** The row that a create prepares, with its tenant id. */
  function Draft(w: World, customer: Id, planId: Id, node: Id, credit: int): Row
    requires planId in w.db.plans
  {
    var plan := w.db.plans[planId];
    Row(customer, planId, node, w.next, "active", 1, w.clock, w.clock + plan.days * 86400, plan.quota, 0, credit, 0)
  }

  /** The world in which a create has provisioned its tenant. */
  function Provisioned(w: World, row: Row): World {
    w.(next := w.next + 2,
       fleet := w.fleet[row.At() := Tenant(row.quota, row.credit, row.endAt, 0, 0, "active")],
       book := w.book.(held := w.book.held[row.At() := {row.quota}]))
  }

  lemma CreateProvisions(w: World, customer: Id, planId: Id, node: Id, credit: int)
    requires customer in w.db.customers && planId in w.db.plans && node in w.db.nodes
    ensures var row := Draft(w, customer, planId, node, credit);
      Alone(w, Create(ReadCustomer(customer, planId, node, credit)), Lucky(4))
      == Outcome(Provisioned(w, row), Some(Create(Insert(row, w.next + 1))))
  {
    hide Alone, Lucky, DeleteStep, PurgeStep, ToggleStep, LifecycleStep, TopupStep, RenewStep;
    var pc0, plan := Create(ReadCustomer(customer, planId, node, credit)), w.db.plans[planId];
    AloneAtFirst(w, pc0);
    AloneOn(w, pc0, 0, w, pc0);
    AloneOn(w, pc0, 1, w, Create(ReadPlan(customer, planId, node, credit)));
    AloneOn(w, pc0, 2, w, Create(ReadNode(customer, planId, plan, node, credit)));
    AloneOn(w, pc0, 3, w, Create(CallCreate(Draft(w, customer, planId, node, credit).(tenant := 0))));
  }

  lemma CreateStores(w: World, customer: Id, planId: Id, node: Id, credit: int)
    requires customer in w.db.customers && planId in w.db.plans && node in w.db.nodes
    ensures var row := Draft(w, customer, planId, node, credit);
      var o := Alone(w, Create(ReadCustomer(customer, planId, node, credit)), Lucky(6));
      && o.pc.None? && o.world.clock == w.clock && o.world.db.nodes == w.db.nodes && o.world.db.plans == w.db.plans
      && o.world.db.subs == w.db.subs[w.next + 2 := row] && o.world.fleet == Provisioned(w, row).fleet
  {
    hide Alone, Lucky, Next;
    var pc0, row := Create(ReadCustomer(customer, planId, node, credit)), Draft(w, customer, planId, node, credit);
    CreateProvisions(w, customer, planId, node, credit);
    var w4 := Provisioned(w, row);
    assert w4.db == w.db && w4.next == w.next + 2 && w4.clock == w.clock;
    assert row.customer == customer && row.plan == planId && row.node == node;
    StoredWorld(w4, row);
    hide Stored, Provisioned, Draft;
    InsertFinds(w4, row, w.next + 1);
    AloneOn(w, pc0, 4, w4, Create(Insert(row, w.next + 1)));
    AloneOn(w, pc0, 5, Stored(w4, row), Create(InsertKey(w4.next, row, w.next + 1)));
  }

  lemma InsertFinds(w: World, row: Row, key: Id)
    requires w.db.CanInsert(row)
    ensures Next(w, Create(Insert(row, key)), FINE)
            == Outcome(Stored(w, row), Some(Create(InsertKey(w.next, row, key))))
    ensures Next(Stored(w, row), Create(InsertKey(w.next, row, key)), FINE)
            == Outcome(Stored(w, row).(db := Stored(w, row).db.InsertKey(key, row.customer)), None)
  {
    hide DeleteStep, PurgeStep, ToggleStep, LifecycleStep, TopupStep, RenewStep, Provision, Deprovision, Abandon;
  }

  lemma StoredWorld(w: World, row: Row)
    ensures var w' := Stored(w, row);
      w'.db == w.db.(subs := w.db.subs[w.next := row]) && w'.fleet == w.fleet && w'.clock == w.clock
  {}

  /** A stored subscription that every request about it can serve. */
  ghost predicate Served(w: World, sid: Id) {
    && sid in w.db.subs && w.db.subs[sid].node in w.db.nodes && w.db.subs[sid].At() in w.fleet
    && w.db.subs[sid].plan in w.db.plans && w.db.plans[w.db.subs[sid].plan].days > 0
  }

  /** A top-up up to its increment. */
  lemma TopupBuys(w: World, sid: Id, bytes: int)
    requires sid in w.db.subs && w.db.subs[sid].node in w.db.nodes && bytes > 0
    ensures Alone(w, LoadSub(sid, AddBytes(bytes)), Lucky(3))
            == Outcome(Buy(w, sid, bytes), Some(Topup(sid, w.db.subs[sid], ReadBack(bytes, |w.book.log|))))
  {
    hide Alone, Lucky, Buy, CreateStep, DeleteStep, PurgeStep, ToggleStep, LifecycleStep, RenewStep;
    var pc0, row := LoadSub(sid, AddBytes(bytes)), w.db.subs[sid];
    AloneAtFirst(w, pc0);
    AloneOn(w, pc0, 0, w, pc0);
    AloneOn(w, pc0, 1, w, LoadNode(sid, row, AddBytes(bytes)));
    AloneOn(w, pc0, 2, w, Topup(sid, row, Add(bytes)));
  }

  /** And from there up to its re-arm. */
  lemma TopupShares(w: World, sid: Id, row: Row, bytes: int, ticket: nat)
    requires sid in w.db.subs && row.At() in w.fleet
    ensures var o := Alone(w, Topup(sid, row, ReadBack(bytes, ticket)), Lucky(4));
      && o.pc == Some(Topup(sid, row, WriteNotified(w.db.subs[sid].quota)))
      && o.world.db == w.db.SetStatus(sid, "active") && o.world.book.log == w.book.log
      && o.world.fleet.Keys == w.fleet.Keys
  {
    hide Alone, Lucky, CreateStep, DeleteStep, PurgeStep, ToggleStep, LifecycleStep, RenewStep;
    var pc0, quota := Topup(sid, row, ReadBack(bytes, ticket)), w.db.subs[sid].quota;
    AloneAtFirst(w, pc0);
    AloneOn(w, pc0, 0, w, pc0);
    AloneOn(w, pc0, 1, w, Topup(sid, row, CallSet(bytes, ticket, quota)));
    var w1 := Configure(w, row.At(), quota, row.credit, row.endAt, FINE);
    AloneOn(w, pc0, 2, w1, Topup(sid, row, CallResume(quota)));
    AloneOn(w, pc0, 3, SwitchTenant(w1, row.At(), "active", FINE), Topup(sid, row, WriteStatus(quota)));
  }

  /** Another top-up comes in and executes its increment. */
  lemma TopupComesIn(s0: System, es: seq<Event>, tid: Id, sid: Id, bytes: int) returns (es': seq<Event>, s': System)
    requires var s := Run(s0, es); tid !in s.threads && Served(s.w, sid) && s.w.db.subs[sid].quota >= 0
    requires Smooth(es) && bytes > 0
    ensures s' == Run(s0, es') && Smooth(es')
    ensures var s := Run(s0, es); var row := s.w.db.subs[sid];
      && s'.threads == s.threads[tid := Topup(sid, row, ReadBack(bytes, |s.w.book.log|))]
      && s'.w.db == s.w.db.(subs := s.w.db.subs[sid := row.(quota := row.quota + bytes)])
      && s'.w.fleet == s.w.fleet && |s'.w.book.log| == |s.w.book.log| + 1
  {
    hide Run, Alone, Buy, Next, Apply, Smooth, Fortunate;
    var s := Run(s0, es);
    TopupBuys(s.w, sid, bytes);
    BuyAdds(s.w, sid, bytes);
    es', s' := Enter(s0, es, tid, LoadSub(sid, AddBytes(bytes)), Lucky(3));
  }

  /** A top-up that has executed its increment reads it back. */
  lemma TopupReadsBack(s0: System, es: seq<Event>, tid: Id) returns (es': seq<Event>, s': System)
    requires var s := Run(s0, es);
      tid in s.threads && s.threads[tid].Topup? && s.threads[tid].topup.ReadBack? && s.threads[tid].sid in s.w.db.subs
    requires Smooth(es)
    ensures s' == Run(s0, es') && Smooth(es')
    ensures var s := Run(s0, es); var pc := s.threads[tid]; var t := pc.topup;
      s' == s.(threads := s.threads[tid := Topup(pc.sid, pc.row,
                                                 CallSet(t.bytes, t.ticket, s.w.db.subs[pc.sid].quota))])
  {
    hide CreateStep, DeleteStep, PurgeStep, ToggleStep, LifecycleStep, RenewStep;
    es', s' := Then(s0, es, Move(tid, FINE));
  }

  /** Or it goes on to its re-arm. */
  lemma TopupGoesOn(s0: System, es: seq<Event>, tid: Id) returns (es': seq<Event>, s': System)
    requires var s := Run(s0, es);
      && tid in s.threads && s.threads[tid].Topup? && s.threads[tid].topup.ReadBack?
      && s.threads[tid].sid in s.w.db.subs
      && s.threads[tid].row.At() in s.w.fleet
    requires Smooth(es)
    ensures s' == Run(s0, es') && Smooth(es')
    ensures var s := Run(s0, es); var pc := s.threads[tid];
      && s'.threads == s.threads[tid := Topup(pc.sid, pc.row, WriteNotified(s.w.db.subs[pc.sid].quota))]
      && s'.w.db == s.w.db.SetStatus(pc.sid, "active")
      && s'.w.fleet.Keys == s.w.fleet.Keys && s'.w.book.log == s.w.book.log
  {
    var s := Run(s0, es);
    var pc := s.threads[tid];
    TopupShares(s.w, pc.sid, pc.row, pc.topup.bytes, pc.topup.ticket);
    hide Run, Alone;
    es', s' := Proceed(s0, es, tid, Lucky(4));
  }

  lemma BuyAdds(w: World, sid: Id, bytes: int)
    requires sid in w.db.subs && w.db.subs[sid].quota >= 0 && bytes > 0
    ensures var w' := Buy(w, sid, bytes); var row := w.db.subs[sid];
      && w'.db == w.db.(subs := w.db.subs[sid := row.(quota := row.quota + bytes)]) && w'.fleet == w.fleet
      && |w'.book.log| == |w.book.log| + 1
  {}

  /** The fates of a renewal that takes some time and in which nothing fails but, perhaps, the read of the plan. */
  function Renewing(read: bool, elapsed: nat): seq<Fate> {
    [FINE, FINE, FINE.(db := read, elapsed := elapsed), FINE, FINE, FINE]
  }

  lemma AloneThen(w: World, pc0: Pc, fs: seq<Fate>, n: nat, w1: World, pc1: Pc)
    requires n < |fs| && Alone(w, pc0, fs[..n]) == Outcome(w1, Some(pc1))
    ensures Alone(w, pc0, fs[..n + 1]) == Next(w1, pc1, fs[n])
  {
    assert fs[..n + 1] == fs[..n] + [fs[n]];
    AloneStep(w, pc0, fs[..n], fs[n]);
    hide Next;
  }

  /** What such a renewal grants. */
  function Granted(w: World, sid: Id, read: bool, elapsed: nat): int
    requires Served(w, sid)
  {
    w.clock + elapsed + (if read then w.db.plans[w.db.subs[sid].plan].days else 30) * 86400
  }

  /** A renewal up to its reset. */
  lemma RenewalReads(w: World, sid: Id, read: bool, elapsed: nat)
    requires Served(w, sid)
    ensures Alone(w, LoadSub(sid, NewPeriod), Renewing(read, elapsed)[..3])
            == Outcome(w.(clock := w.clock + elapsed),
                       Some(Renew(sid, w.db.subs[sid], CallReset(Granted(w, sid, read, elapsed), !read))))
  {
    hide Alone, CreateStep, DeleteStep, PurgeStep, ToggleStep, LifecycleStep, TopupStep;
    var pc0, row, fs := LoadSub(sid, NewPeriod), w.db.subs[sid], Renewing(read, elapsed);
    assert Alone(w, pc0, fs[..0]) == Outcome(w, Some(pc0)) by { AloneAtFirst(w, pc0); assert fs[..0] == Lucky(0); }
    AloneThen(w, pc0, fs, 0, w, pc0);
    AloneThen(w, pc0, fs, 1, w, LoadNode(sid, row, NewPeriod));
    AloneThen(w, pc0, fs, 2, w, Renew(sid, row, ReadItsPlan));
  }

  /** And up to its final write. */
  lemma RenewalCalls(w: World, sid: Id, read: bool, elapsed: nat)
    requires Served(w, sid)
    ensures var o := Alone(w, LoadSub(sid, NewPeriod), Renewing(read, elapsed)[..5]);
      && o.pc == Some(Renew(sid, w.db.subs[sid], WriteRenewed(Granted(w, sid, read, elapsed), !read)))
      && o.world.db == w.db && o.world.clock == w.clock + elapsed && o.world.fleet.Keys == w.fleet.Keys
  {
    hide Alone, Granted, CreateStep, DeleteStep, PurgeStep, ToggleStep, LifecycleStep, TopupStep;
    var pc0, row, fs := LoadSub(sid, NewPeriod), w.db.subs[sid], Renewing(read, elapsed);
    var endAt, w1 := Granted(w, sid, read, elapsed), w.(clock := w.clock + elapsed);
    RenewalReads(w, sid, read, elapsed);
    AloneThen(w, pc0, fs, 3, w1, Renew(sid, row, CallReset(endAt, !read)));
    AloneThen(w, pc0, fs, 4, ResetTenant(w1, row.At()), Renew(sid, row, CallRenewed(endAt, !read)));
  }

  /** Where a renewal leads that runs alone. */
  lemma RenewalEnds(w: World, sid: Id, read: bool, elapsed: nat)
    requires Served(w, sid)
    ensures var o := Alone(w, LoadSub(sid, NewPeriod), Renewing(read, elapsed)); var row := w.db.subs[sid];
      && o.pc.None? && o.world.clock == w.clock + elapsed && o.world.db.plans == w.db.plans && Served(o.world, sid)
      && o.world.db.subs[sid] == row.(used := 0, period := row.period + 1, notified := 0, status := "active",
           endAt := Granted(w, sid, read, elapsed))
  {
    hide Alone, Granted, CreateStep, DeleteStep, PurgeStep, ToggleStep, LifecycleStep, TopupStep;
    var pc0, row, fs := LoadSub(sid, NewPeriod), w.db.subs[sid], Renewing(read, elapsed);
    RenewalCalls(w, sid, read, elapsed);
    var o := Alone(w, pc0, fs[..5]);
    AloneThen(w, pc0, fs, 5, o.world, o.pc.value);
    assert fs[..6] == fs;
  }

  /** An installation with one unused subscription of 100 bytes and the given days, and no request under way. */
  lemma Stock(clock: int, days: int) returns (es: seq<Event>, s: System, sid: Id)
    requires days > 0
    ensures s == Run(Fresh(clock), es) && Smooth(es) && s.threads == map[] && s.w.clock == clock
    ensures Served(s.w, sid)
    ensures var row := s.w.db.subs[sid];
      && row.quota == 100 && row.used == row.notified == 0 && row.status == "active"
      && row.endAt == clock + days * 86400 && s.w.db.plans[row.plan].days == days
  {
    var h, s1 := SetUp(clock, days);
    hide Run, Alone, Next, Apply, Fresh, Fortunate, Smooth;
    CreateStores(s1.w, 1, 2, 3, 0);
    es, s := Enter(Fresh(clock), h, 4, Create(ReadCustomer(1, 2, 3, 0)), Lucky(6));
    sid := s1.w.next + 2;
    StoredIsServed(s1.w, s.w, sid, days);
    hide Draft, Provisioned, Served;
  }

  lemma StoredIsServed(w: World, w': World, sid: Id, days: int)
    requires w.db == Setting(days) && days > 0
    requires var row := Draft(w, 1, 2, 3, 0);
      && w'.db.nodes == w.db.nodes && w'.db.plans == w.db.plans
      && w'.db.subs == w.db.subs[sid := row] && w'.fleet == Provisioned(w, row).fleet
    ensures Served(w', sid)
    ensures var row := w'.db.subs[sid];
      && row.quota == 100 && row.used == row.notified == 0 && row.status == "active"
      && row.endAt == w.clock + days * 86400 && w'.db.plans[row.plan].days == days
  {}
}
