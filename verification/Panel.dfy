/**
 * The handlers as they are written: store statements and node calls in order, early returns and
 * compensation. `fates` says what befalls each step. Every handler is proved to be a run of the
 * step machine from its entry to its end, so what holds of all interleavings holds of it.
 */
module Panel {
  import opened Domain
  import opened Database
  import opened Protocol
  import opened Reachability
  import opened Store
  import opened Agreement
  import opened Outcomes
  import Threshold

  /** The run meets the given fates, except that a loop itself chooses which row comes next. */
  ghost predicate Meets(run: seq<Fate>, fates: nat -> Fate) {
    forall i | 0 <= i < |run| :: run[i] == fates(i).(pick := run[i].pick)
  }

  /** Serving the request takes the world from `was` to `w`, under these fates and to the end. */
  ghost predicate Serves(was: World, request: Pc, fates: nat -> Fate, run: seq<Fate>, w: World) {
    IsRequest(request) && Alone(was, request, run) == Outcome(w, None) && Meets(run, fates)
  }

  /** So whatever holds in every reachable state holds after every handler. */
  lemma ServingStaysReachable(was: World, request: Pc, fates: nat -> Fate, run: seq<Fate>, w: World)
    requires Reachable(was) && Serves(was, request, fates, run, w)
    ensures Reachable(w)
  {
    ServingIsReachable(was, request, run);
  }

  lemma Start(w0: World, pc0: Pc, fates: nat -> Fate)
    ensures Alone(w0, pc0, []) == Outcome(w0, Some(pc0)) && Meets([], fates)
  {}

  lemma Step(w0: World, pc0: Pc, fates: nat -> Fate, run: seq<Fate>, w: World, pc: Pc, f: Fate)
    requires Alone(w0, pc0, run) == Outcome(w, Some(pc))
    requires Meets(run, fates) && f == fates(|run|).(pick := f.pick)
    ensures Alone(w0, pc0, run + [f]) == Next(w, pc, f) && Meets(run + [f], fates)
  {
    hide Next;
    assert (run + [f])[..|run|] == run;
  }

  class API {
    const store: Store
    const agents: Agents
    var next: Id
    var clock: int
    ghost var book: Book

    ghost function W(): World
      reads this, store, agents
    {
      World(store.View(), agents.tenants, next, clock, book)
    }

    constructor (now: int)
      ensures W() == Fresh(now).w && Reachable(W())
      ensures fresh(store) && fresh(agents)
    {
      store := new Store();
      agents := new Agents();
      next, clock, book := 1, now, Fresh(now).w.book;
      new;
      assert Run(Fresh(now), []).w == W();
    }

    // ---------- customers, plans and nodes ----------

    method CreateCustomer(up: bool) returns (id: Option<Id>)
      modifies this`next, store`customers
      ensures id == if up then Some(old(next)) else None
      ensures W() == if up then Witnessing(old(W()), AddCustomer) else old(W())
      ensures store.customers == if up then old(store.customers)[old(next) := "active"] else old(store.customers)
    {
      var ok := store.CreateCustomer(next, up);
      if !ok { return None; }
      id, next := Some(next), next + 1;
    }

    /** A plan without bytes or days is a bad request. */
    method CreatePlan(quota: int, days: int, up: bool) returns (id: Option<Id>)
      modifies this`next, store`plans
      ensures id == if up && quota > 0 && days > 0 then Some(old(next)) else None
      ensures W() == if up then Witnessing(old(W()), AddPlan(Plan(quota, days))) else old(W())
      ensures store.plans == if id.Some? then old(store.plans)[old(next) := Plan(quota, days)] else old(store.plans)
    {
      if quota <= 0 || days <= 0 { return None; }
      var ok := store.CreatePlan(next, Plan(quota, days), up);
      if !ok { return None; }
      id, next := Some(next), next + 1;
    }

    method CreateNode(up: bool) returns (id: Option<Id>)
      modifies this`next, store`nodes
      ensures id == if up then Some(old(next)) else None
      ensures W() == if up then Witnessing(old(W()), AddNode) else old(W())
      ensures store.nodes == if up then old(store.nodes) + {old(next)} else old(store.nodes)
    {
      var ok := store.CreateNode(next, up);
      if !ok { return None; }
      id, next := Some(next), next + 1;
    }

    // ---------- create and delete ----------

    method CreateSubscription(customer: Id, planId: Id, node: Id, credit: int, fates: nat -> Fate)
      returns (sid: Option<Id>, ghost run: seq<Fate>)
      modifies this, store`subs, store`keys, agents
      ensures Serves(old(W()), Create(ReadCustomer(customer, planId, node, credit)), fates, run, W())
      ensures Created(old(W()), W(), customer, planId, node, credit, fates, sid)
      ensures sid.Some? ==> planId in store.plans
                            && Provisioned(W(), sid.value, customer, planId, node, credit,
                                           store.plans[planId], old(next))
    {
      hide Alone, Meets, DeleteStep, PurgeStep, ToggleStep, LifecycleStep, TopupStep, RenewStep;
      ghost var w0, pc0 := W(), Create(ReadCustomer(customer, planId, node, credit));
      run, sid := [], None;
      Start(w0, pc0, fates);

      var known := store.GetCustomer(customer, fates(0).db);
      Step(w0, pc0, fates, run, w0, pc0, fates(0));
      run := run + [fates(0)];
      if !known { return; }

      var plan := store.GetPlan(planId, fates(1).db);
      Step(w0, pc0, fates, run, w0, Create(ReadPlan(customer, planId, node, credit)), fates(1));
      run := run + [fates(1)];
      if plan.None? { return; }

      var found := store.GetNode(node, fates(2).db);
      Step(w0, pc0, fates, run, w0, Create(ReadNode(customer, planId, plan.value, node, credit)), fates(2));
      run := run + [fates(2)];
      if !found { return; }

      clock := clock + fates(2).elapsed;
      var endAt := clock + plan.value.days * 86400;
      var draft := Row(customer, planId, node, 0, "active", 1, clock, endAt, plan.value.quota, 0, credit, 0);
      hide Next, CreateStep, Enrolled;
      sid, run := Enroll(draft, fates, w0, pc0, run);
      if sid.Some? { CreateAmounts(w0, W(), customer, planId, node, credit, fates, sid); }
    }

    /** Creates the tenant on its node, then stores what the panel knows of it. */
    method Enroll(draft: Row, fates: nat -> Fate, ghost w0: World, ghost pc0: Pc, ghost was: seq<Fate>)
      returns (sid: Option<Id>, ghost run: seq<Fate>)
      requires Alone(w0, pc0, was) == Outcome(W(), Some(Create(CallCreate(draft)))) && Meets(was, fates) && |was| == 3
      requires store.View().CanInsert(draft)
      modifies this`next, this`book, store`subs, store`keys, agents
      ensures Alone(w0, pc0, run) == Outcome(W(), None) && Meets(run, fates)
      ensures Enrolled(old(W()), W(), draft.(tenant := old(next)), fates, sid)
    {
      hide Alone, Meets, DeleteStep, PurgeStep, ToggleStep, LifecycleStep, TopupStep, RenewStep;
      sid := None;
      var key, row := next + 1, draft.(tenant := next);
      ghost var w := W();
      var made := agents.CreateTenant(row.At(), row.quota, row.credit, row.endAt, fates(3).reply);
      next := next + 2;
      Step(w0, pc0, fates, was, w, Create(CallCreate(draft)), fates(3));
      book := Next(w, Create(CallCreate(draft)), fates(3)).world.book;
      run := was + [fates(3)];
      if !made { return; }
      hide Next, CreateStep;
      sid, run := Persist(row, key, fates, w0, pc0, run);
    }

    /** Stores the subscription and then its key; the tenant is deleted again if either fails. */
    method Persist(row: Row, key: Id, fates: nat -> Fate,
        ghost w0: World, ghost pc0: Pc, ghost was: seq<Fate>)
      returns (sid: Option<Id>, ghost run: seq<Fate>)
      requires Alone(w0, pc0, was) == Outcome(W(), Some(Create(Insert(row, key)))) && Meets(was, fates) && |was| == 4
      requires store.View().CanInsert(row)
      modifies this`next, this`book, store`subs, store`keys, agents
      ensures Alone(w0, pc0, run) == Outcome(W(), None) && Meets(run, fates)
      ensures var id := old(next);
        && sid == (if fates(4).db && fates(5).db then Some(id) else None)
        && next == (if fates(4).db then id + 1 else id)
        && store.keys == (if sid.Some? then old(store.keys)[key := row.customer] else old(store.keys))
        && store.subs == (if sid.Some? then old(store.subs)[id := row]
                          else if !fates(4).db then old(store.subs)
                          else if fates(7).db then old(store.subs)[id := row] - {id} else old(store.subs)[id := row])
        && agents.tenants == (if sid.Some? || fates(if fates(4).db then 6 else 5).reply == Refused
                              then old(agents.tenants) else old(agents.tenants) - {row.At()})
    {
      hide Alone, Meets, DeleteStep, PurgeStep, ToggleStep, LifecycleStep, TopupStep, RenewStep;
      sid := None;
      ghost var w := W();
      var stored := store.CreateSubscription(next, row, fates(4).db);
      Step(w0, pc0, fates, was, w, Create(Insert(row, key)), fates(4));
      book := Next(w, Create(Insert(row, key)), fates(4)).world.book;
      run := was + [fates(4)];
      hide Next, CreateStep;
      if !stored {
        run := RollbackTenant(row, fates(5).reply, None, fates, w0, pc0, run);
        return;
      }
      var id := next;
      next := next + 1;
      var keyed;
      keyed, run := PersistKey(id, row, key, fates, w0, pc0, run);
      if keyed { sid := Some(id); }
    }

    method PersistKey(id: Id, row: Row, key: Id, fates: nat -> Fate,
        ghost w0: World, ghost pc0: Pc, ghost was: seq<Fate>)
      returns (keyed: bool, ghost run: seq<Fate>)
      requires Alone(w0, pc0, was) == Outcome(W(), Some(Create(InsertKey(id, row, key))))
      requires Meets(was, fates) && |was| == 5
      modifies this`book, store`subs, store`keys, agents
      ensures Alone(w0, pc0, run) == Outcome(W(), None) && Meets(run, fates)
      ensures keyed == (fates(5).db && row.customer in store.customers)
      ensures store.keys == if keyed then old(store.keys)[key := row.customer] else old(store.keys)
      ensures store.subs == if keyed || !fates(7).db then old(store.subs) else old(store.subs) - {id}
      ensures agents.tenants
              == if keyed || fates(6).reply == Refused then old(agents.tenants) else old(agents.tenants) - {row.At()}
    {
      hide Alone, Meets, DeleteStep, PurgeStep, ToggleStep, LifecycleStep, TopupStep, RenewStep;
      ghost var w := W();
      keyed := store.CreateAPIKey(key, row.customer, fates(5).db);
      Step(w0, pc0, fates, was, w, Create(InsertKey(id, row, key)), fates(5));
      run := was + [fates(5)];
      if !keyed {
        run := RollbackTenant(row, fates(6).reply, Some(id), fates, w0, pc0, run);
        w := W();
        var _ := store.DeleteSubscription(id, fates(7).db);
        Step(w0, pc0, fates, run, w, Create(Unstore(id)), fates(7));
        book := Next(w, Create(Unstore(id)), fates(7)).world.book;
        run := run + [fates(7)];
      }
    }

    /** Deletes the tenant again; a failure is only logged. */
    method RollbackTenant(row: Row, reply: Reply, ghost stored: Option<Id>, fates: nat -> Fate,
        ghost w0: World, ghost pc0: Pc, ghost was: seq<Fate>)
      returns (ghost run: seq<Fate>)
      requires Alone(w0, pc0, was) == Outcome(W(), Some(Create(Undo(row, stored)))) && Meets(was, fates)
      requires reply == fates(|was|).reply
      modifies this`book, agents
      ensures Alone(w0, pc0, run) == Outcome(W(), if stored.Some? then Some(Create(Unstore(stored.value))) else None)
      ensures Meets(run, fates) && |run| == |was| + 1
      ensures agents.tenants == if reply == Refused then old(agents.tenants) else old(agents.tenants) - {row.At()}
    {
      hide Alone, Meets, DeleteStep, PurgeStep, ToggleStep, LifecycleStep, TopupStep, RenewStep;
      ghost var w, f := W(), fates(|was|);
      var _ := agents.Delete(row.At(), reply);
      Step(w0, pc0, fates, was, w, Create(Undo(row, stored)), f);
      run := was + [f];
      book := Next(w, Create(Undo(row, stored)), f).world.book;
    }

    method DeleteSubscription(sid: Id, fates: nat -> Fate) returns (ok: bool, ghost run: seq<Fate>)
      modifies store`subs, agents
      ensures Serves(old(W()), Delete(ReadSub(sid)), fates, run, W())
      ensures Deleted(old(W()), W(), sid, fates, ok)
      ensures ok ==> sid in old(store.subs) && sid !in store.subs
                     && (old(store.subs)[sid].tenant != 0 ==> old(store.subs)[sid].At() !in agents.tenants)
      ensures !ok ==> store.View() == old(store.View())
    {
      hide Alone, Meets, CreateStep, PurgeStep, ToggleStep, LifecycleStep, TopupStep, RenewStep;
      ok := false;
      ghost var w0, pc0 := W(), Delete(ReadSub(sid));
      run := [];
      Start(w0, pc0, fates);
      var sub := store.GetSubscription(sid, fates(0).db);
      Step(w0, pc0, fates, run, w0, pc0, fates(0));
      run := run + [fates(0)];
      if sub.None? { return; }
      var row := sub.value;
      var n := 1;
      if row.tenant != 0 {
        var known := store.GetNode(row.node, fates(1).db);
        Step(w0, pc0, fates, run, w0, Delete(ReadItsNode(sid, row)), fates(1));
        run := run + [fates(1)];
        if !known { return; }
        var gone := agents.Delete(row.At(), fates(2).reply);
        Step(w0, pc0, fates, run, w0, Delete(CallDelete(sid, row)), fates(2));
        run := run + [fates(2)];
        if !gone { return; }
        n := 3;
      }
      ghost var w := W();
      ok := store.DeleteSubscription(sid, fates(n).db);
      Step(w0, pc0, fates, run, w, Delete(DeleteRow(sid, row)), fates(n));
      run := run + [fates(n)];
    }

    // ---------- handlers on one subscription ----------

    method LoadSubAndNode(sid: Id, ghost task: Task, fates: nat -> Fate)
      returns (sub: Option<Row>, ghost run: seq<Fate>)
      ensures Alone(W(), LoadSub(sid, task), run)
              == Outcome(W(), if sub.Some? then Some(Begin(sid, sub.value, task)) else None)
      ensures Meets(run, fates) && (sub.Some? ==> |run| == 2 && sid in store.subs && sub.value == store.subs[sid])
      ensures sub.Some? <==> Loads(W(), sid, fates)
    {
      hide Alone, Meets, CreateStep, DeleteStep, PurgeStep, ToggleStep, LifecycleStep, TopupStep, RenewStep, Begin;
      ghost var w0, pc0 := W(), LoadSub(sid, task);
      run := [];
      Start(w0, pc0, fates);
      sub := store.GetSubscription(sid, fates(0).db);
      Step(w0, pc0, fates, run, w0, pc0, fates(0));
      run := run + [fates(0)];
      if sub.None? { return; }
      var known := store.GetNode(sub.value.node, fates(1).db);
      Step(w0, pc0, fates, run, w0, LoadNode(sid, sub.value, task), fates(1));
      run := run + [fates(1)];
      if !known { sub := None; }
    }

    /** Suspend and resume. */
    method SubscriptionLifecycle(sid: Id, target: string, fates: nat -> Fate) returns (ok: bool, ghost run: seq<Fate>)
      requires target == "suspended" || target == "active"
      modifies this`book, store`subs, agents
      ensures Serves(old(W()), LoadSub(sid, Task.Switch(target)), fates, run, W())
      ensures Switched(old(W()), W(), sid, target, fates, ok)
      ensures ok ==> sid in old(store.subs)
                     && store.subs == old(store.subs)[sid := old(store.subs)[sid].(status := target)]
                     && store.subs[sid].At() in agents.tenants && agents.tenants[store.subs[sid].At()].status == target
      ensures !ok ==> store.View() == old(store.View())
    {
      ok := false;
      var sub;
      ghost var w0, pc0, task := W(), LoadSub(sid, Task.Switch(target)), Task.Switch(target);
      sub, run := LoadSubAndNode(sid, task, fates);
      if sub.None? { return; }
      hide Alone, Meets, CreateStep, DeleteStep, PurgeStep, ToggleStep, TopupStep, RenewStep;
      var row := sub.value;
      var acked := agents.Switch(row.At(), target, fates(2).reply);
      Step(w0, pc0, fates, run, w0, Lifecycle(sid, row, target, false), fates(2));
      run := run + [fates(2)];
      if !acked { return; }
      ghost var w := W();
      ok := store.UpdateSubscriptionStatus(sid, target, fates(3).db);
      Step(w0, pc0, fates, run, w, Lifecycle(sid, row, target, true), fates(3));
      book := Next(w, Lifecycle(sid, row, target, true), fates(3)).world.book;
      run := run + [fates(3)];
    }

    /** The increment comes first and is taken back if the node does not confirm it. */
    method TopupQuota(sid: Id, bytes: int, fates: nat -> Fate) returns (ok: bool, ghost run: seq<Fate>)
      modifies this`book, store`subs, agents
      ensures Serves(old(W()), LoadSub(sid, AddBytes(bytes)), fates, run, W())
      ensures ToppedUp(old(W()), W(), sid, bytes, fates, ok)
      ensures ok ==> sid in old(store.subs) && bytes > 0 && Agrees(W(), sid)
                     && Shares(W(), sid, old(store.subs)[sid].At(), Max(0, old(store.subs)[sid].quota + bytes))
      ensures ok ==> sid in store.subs && store.subs[sid].At() in agents.tenants
                     && (fates(5).reply != Refused ==> agents.tenants[store.subs[sid].At()].status == "active")
                     && (fates(6).db ==> store.subs[sid].status == "active")
      ensures !ok && (sid in old(store.subs) ==> old(store.subs)[sid].quota >= 0)
              ==> (store.View() != old(store.View()) <==> KeepsIncrement(old(W()), sid, bytes, fates))
      ensures Agrees(old(W()), sid) && old(store.subs)[sid].quota >= 0
              ==> Live(W(), sid) && (Agrees(W(), sid) <==> !TopupSplits(old(W()), sid, bytes, fates))
    {
      ok := false;
      var sub;
      ghost var w0, pc0 := W(), LoadSub(sid, AddBytes(bytes));
      sub, run := LoadSubAndNode(sid, AddBytes(bytes), fates);
      hide Alone, Meets, Next;
      if sub.Some? { ok, run := BuyQuota(sid, sub.value, bytes, fates, w0, pc0, run); }
      TopupAmounts(w0, W(), sid, bytes, fates, ok);
      if Agrees(w0, sid) && w0.db.subs[sid].quota >= 0 { TopupSplitsExactly(w0, W(), sid, bytes, fates, ok); }
      hide TopupSplits, KeepsIncrement, Agrees, Threshold.Level;
    }

    method BuyQuota(sid: Id, row: Row, bytes: int, fates: nat -> Fate,
        ghost w0: World, ghost pc0: Pc, ghost was: seq<Fate>)
      returns (ok: bool, ghost run: seq<Fate>)
      requires Alone(w0, pc0, was) == Outcome(W(), Some(Topup(sid, row, Add(bytes)))) && Meets(was, fates) && |was| == 2
      requires sid in store.subs && store.subs[sid] == row
      modifies this`book, store`subs, agents
      ensures Alone(w0, pc0, run) == Outcome(W(), None) && Meets(run, fates)
      ensures if bytes <= 0 || !fates(2).db then !ok && Unchanged(old(W()), W())
              else Shared(Incremented(old(W()), sid, bytes), W(), sid, bytes, fates, ok)
    {
      hide Alone, Meets, CreateStep, DeleteStep, PurgeStep, ToggleStep, LifecycleStep, RenewStep;
      ok := false;
      ghost var w := W();
      if bytes <= 0 {
        Step(w0, pc0, fates, was, w, Topup(sid, row, Add(bytes)), fates(2));
        run := was + [fates(2)];
        return;
      }
      var added;
      added, run := Increment(sid, row, bytes, fates, w0, pc0, was);
      if !added { return; }
      hide Next, TopupStep, Shared;
      ghost var w1 := W();
      ok, run := ShareQuota(sid, row, bytes, |w.book.log|, fates, w0, pc0, run);
      SharedAlike(w1, Incremented(w, sid, bytes), W(), sid, bytes, fates, ok);
    }

    method Increment(sid: Id, row: Row, bytes: int, fates: nat -> Fate,
        ghost w0: World, ghost pc0: Pc, ghost was: seq<Fate>)
      returns (added: bool, ghost run: seq<Fate>)
      requires Alone(w0, pc0, was) == Outcome(W(), Some(Topup(sid, row, Add(bytes)))) && Meets(was, fates) && |was| == 2
      requires bytes > 0 && sid in store.subs && store.subs[sid] == row
      modifies this`book, store`subs
      ensures Meets(run, fates) && |run| == 3 && added == fates(2).db
      ensures store.subs == if added
                            then old(store.subs)[sid := row.(quota := Max(0, row.quota + bytes))] else old(store.subs)
      ensures if added
        then |book.log| > |old(book).log|
             && Alone(w0, pc0, run) == Outcome(W(), Some(Topup(sid, row, ReadBack(bytes, |old(book).log|))))
        else Alone(w0, pc0, run) == Outcome(W(), None)
    {
      hide Alone, Meets, CreateStep, DeleteStep, PurgeStep, ToggleStep, LifecycleStep, RenewStep;
      hide Configure, Unbuy, Rearm, SwitchRow, Threshold.Level;
      ghost var w := W();
      added := store.AddQuota(sid, bytes, fates(2).db);
      Step(w0, pc0, fates, was, w, Topup(sid, row, Add(bytes)), fates(2));
      book := Next(w, Topup(sid, row, Add(bytes)), fates(2)).world.book;
      run := was + [fates(2)];
    }

    method ShareQuota(sid: Id, row: Row, bytes: int, ghost ticket: nat, fates: nat -> Fate,
        ghost w0: World, ghost pc0: Pc, ghost was: seq<Fate>)
      returns (ok: bool, ghost run: seq<Fate>)
      requires Alone(w0, pc0, was) == Outcome(W(), Some(Topup(sid, row, ReadBack(bytes, ticket))))
      requires Meets(was, fates) && |was| == 3
      requires ticket < |book.log| && sid in store.subs && store.subs[sid] == row.(quota := store.subs[sid].quota)
      modifies this`book, store`subs, agents
      ensures Alone(w0, pc0, run) == Outcome(W(), None) && Meets(run, fates)
      ensures Shared(old(W()), W(), sid, bytes, fates, ok)
    {
      hide Alone, Meets, CreateStep, DeleteStep, PurgeStep, ToggleStep, LifecycleStep, RenewStep;
      hide Buy, Rearm, SwitchRow, SwitchTenant, Unbuy, Threshold.Level;
      ok := false;
      ghost var w := W();
      var quota := store.ReadQuota(sid, fates(3).db);
      Step(w0, pc0, fates, was, w, Topup(sid, row, ReadBack(bytes, ticket)), fates(3));
      run := was + [fates(3)];
      assert store.subs[sid := store.subs[sid]] == store.subs;
      if quota.None? { return; }
      hide Next, TopupStep;
      ok, run := GiveQuota(sid, row, bytes, ticket, quota.value, fates, w0, pc0, run);
    }

    /** The node is given the quota; the increment stands only if the node confirms it. */
    method GiveQuota(sid: Id, row: Row, bytes: int, ghost ticket: nat, quota: int, fates: nat -> Fate,
        ghost w0: World, ghost pc0: Pc, ghost was: seq<Fate>)
      returns (ok: bool, ghost run: seq<Fate>)
      requires Alone(w0, pc0, was) == Outcome(W(), Some(Topup(sid, row, CallSet(bytes, ticket, quota))))
      requires Meets(was, fates) && |was| == 4 && fates(3).db
      requires ticket < |book.log| && sid in store.subs && store.subs[sid] == row.(quota := quota)
      modifies this`book, store`subs, agents
      ensures Alone(w0, pc0, run) == Outcome(W(), None) && Meets(run, fates)
      ensures Shared(old(W()), W(), sid, bytes, fates, ok)
    {
      hide Alone, Meets, CreateStep, DeleteStep, PurgeStep, ToggleStep, LifecycleStep, RenewStep;
      hide Buy, Rearm, SwitchRow, SwitchTenant, Unbuy, Threshold.Level;
      ghost var w := W();
      ghost var landed := Lands(w, row.At(), fates(4));
      ok := agents.SetQuota(row.At(), quota, row.credit, row.endAt, fates(4).reply);
      Step(w0, pc0, fates, was, w, Topup(sid, row, CallSet(bytes, ticket, quota)), fates(4));
      run := was + [fates(4)];
      hide Next, TopupStep, Configure;
      if ok {
        run := Reactivate(sid, row, quota, fates, w0, pc0, run);
      } else {
        run := TakeBackQuota(sid, row, bytes, ticket, landed, fates, w0, pc0, run);
      }
    }

    method TakeBackQuota(sid: Id, row: Row, bytes: int, ghost ticket: nat, ghost landed: bool, fates: nat -> Fate,
        ghost w0: World, ghost pc0: Pc, ghost was: seq<Fate>)
      returns (ghost run: seq<Fate>)
      requires Alone(w0, pc0, was) == Outcome(W(), Some(Topup(sid, row, TakeBack(bytes, ticket, landed))))
      requires Meets(was, fates) && |was| == 5
      requires ticket < |book.log| && sid in store.subs
      modifies this`book, store`subs
      ensures Alone(w0, pc0, run) == Outcome(W(), None) && Meets(run, fates)
      ensures var r := old(store.subs)[sid];
        store.subs == old(store.subs)[sid := if fates(5).db then r.(quota := Max(0, r.quota - bytes)) else r]
    {
      hide Alone, Meets, CreateStep, DeleteStep, PurgeStep, ToggleStep, LifecycleStep, RenewStep, Threshold.Level;
      ghost var w := W();
      var _ := store.AddQuota(sid, -bytes, fates(5).db);
      Step(w0, pc0, fates, was, w, Topup(sid, row, TakeBack(bytes, ticket, landed)), fates(5));
      book := Next(w, Topup(sid, row, TakeBack(bytes, ticket, landed)), fates(5)).world.book;
      run := was + [fates(5)];
    }

    /** Failures from here on are ignored. */
    method Reactivate(sid: Id, row: Row, quota: int, fates: nat -> Fate,
        ghost w0: World, ghost pc0: Pc, ghost was: seq<Fate>)
      returns (ghost run: seq<Fate>)
      requires Alone(w0, pc0, was) == Outcome(W(), Some(Topup(sid, row, CallResume(quota))))
      requires Meets(was, fates) && |was| == 5 && sid in store.subs
      modifies this`book, store`subs, agents
      ensures Alone(w0, pc0, run) == Outcome(W(), None) && Meets(run, fates)
      ensures agents.tenants == if row.At() in old(agents.tenants) && fates(5).reply != Refused
                                then old(agents.tenants)[row.At() := old(agents.tenants)[row.At()].(status := "active")]
                                else old(agents.tenants)
      ensures var r := old(store.subs)[sid];
        store.subs == old(store.subs)[sid :=
          r.(status := if fates(6).db then "active" else r.status,
             notified := if fates(7).db then Threshold.Level(row.used, quota) else r.notified)]
    {
      hide Alone, Meets, CreateStep, DeleteStep, PurgeStep, ToggleStep, LifecycleStep, RenewStep;
      hide Buy, Unbuy, Configure, Threshold.Level;
      ghost var w := W();
      var _ := agents.Switch(row.At(), "active", fates(5).reply);
      Step(w0, pc0, fates, was, w, Topup(sid, row, CallResume(quota)), fates(5));
      run := was + [fates(5)];
      hide Next, TopupStep, SwitchTenant;
      run := ReactivateRow(sid, row, quota, fates, w0, pc0, run);
      run := RearmNotices(sid, row, quota, fates, w0, pc0, run);
    }

    method ReactivateRow(sid: Id, row: Row, quota: int, fates: nat -> Fate,
        ghost w0: World, ghost pc0: Pc, ghost was: seq<Fate>)
      returns (ghost run: seq<Fate>)
      requires Alone(w0, pc0, was) == Outcome(W(), Some(Topup(sid, row, WriteStatus(quota))))
      requires Meets(was, fates) && |was| == 6 && sid in store.subs
      modifies this`book, store`subs
      ensures Alone(w0, pc0, run) == Outcome(W(), Some(Topup(sid, row, WriteNotified(quota))))
      ensures Meets(run, fates) && |run| == 7
      ensures var r := old(store.subs)[sid];
        store.subs == old(store.subs)[sid := r.(status := if fates(6).db then "active" else r.status)]
    {
      hide Alone, Meets, CreateStep, DeleteStep, PurgeStep, ToggleStep, LifecycleStep, RenewStep;
      hide Buy, Unbuy, Configure, Threshold.Level;
      ghost var w := W();
      var _ := store.UpdateSubscriptionStatus(sid, "active", fates(6).db);
      Step(w0, pc0, fates, was, w, Topup(sid, row, WriteStatus(quota)), fates(6));
      book := Next(w, Topup(sid, row, WriteStatus(quota)), fates(6)).world.book;
      run := was + [fates(6)];
    }

    method RearmNotices(sid: Id, row: Row, quota: int, fates: nat -> Fate,
        ghost w0: World, ghost pc0: Pc, ghost was: seq<Fate>)
      returns (ghost run: seq<Fate>)
      requires Alone(w0, pc0, was) == Outcome(W(), Some(Topup(sid, row, WriteNotified(quota))))
      requires Meets(was, fates) && |was| == 7 && sid in store.subs
      modifies this`book, store`subs
      ensures Alone(w0, pc0, run) == Outcome(W(), None) && Meets(run, fates)
      ensures var r := old(store.subs)[sid];
        store.subs == old(store.subs)[sid :=
          r.(notified := if fates(7).db then Threshold.Level(row.used, quota) else r.notified)]
    {
      hide Alone, Meets, CreateStep, DeleteStep, PurgeStep, ToggleStep, LifecycleStep, RenewStep;
      hide Buy, Unbuy, Configure, Threshold.Level;
      ghost var w := W();
      store.UpdateSubscriptionNotified(sid, Threshold.Level(row.used, quota), fates(7).db);
      Step(w0, pc0, fates, was, w, Topup(sid, row, WriteNotified(quota)), fates(7));
      book := Next(w, Topup(sid, row, WriteNotified(quota)), fates(7)).world.book;
      run := was + [fates(7)];
    }

    method RenewSubscription(sid: Id, fates: nat -> Fate) returns (ok: bool, ghost run: seq<Fate>)
      modifies this`book, this`clock, store`subs, agents
      ensures Serves(old(W()), LoadSub(sid, NewPeriod), fates, run, W())
      ensures PeriodRenewed(old(W()), W(), sid, fates, ok)
      ensures ok ==> sid in old(store.subs) && Agrees(W(), sid)
                     && store.subs == old(store.subs)[sid := old(store.subs)[sid].(
                          used := 0, period := old(store.subs)[sid].period + 1, notified := 0, status := "active",
                          endAt := NewEnd(old(W()), old(store.subs)[sid], fates(2)))]
      ensures !ok ==> store.View() == old(store.View())
      ensures Agrees(old(W()), sid) ==> Live(W(), sid) && (Agrees(W(), sid) <==> !RenewalSplits(old(W()), sid, fates))
    {
      ok := false;
      var sub;
      ghost var w0, pc0 := W(), LoadSub(sid, NewPeriod);
      sub, run := LoadSubAndNode(sid, NewPeriod, fates);
      hide Alone, Meets, Next;
      if sub.Some? {
        var row := sub.value;
        var endAt;
        endAt, run := GrantPeriod(sid, row, fates, w0, pc0, run);
        ok, run := StartPeriod(sid, row, endAt, !fates(2).db, fates, w0, pc0, run);
      }
      RenewalAmounts(w0, W(), sid, fates, ok);
      hide PeriodStarted, NewEnd, RenewalSplits, Agrees;
    }

    /** A plan that cannot be read counts as 30 days. */
    method GrantPeriod(sid: Id, row: Row, fates: nat -> Fate, ghost w0: World, ghost pc0: Pc, ghost was: seq<Fate>)
      returns (endAt: int, ghost run: seq<Fate>)
      requires Alone(w0, pc0, was) == Outcome(W(), Some(Renew(sid, row, ReadItsPlan)))
      requires Meets(was, fates) && |was| == 2
      modifies this`clock
      ensures endAt == NewEnd(old(W()), row, fates(2)) && clock == old(clock) + fates(2).elapsed
      ensures Alone(w0, pc0, run) == Outcome(W(), Some(Renew(sid, row, CallReset(endAt, !fates(2).db))))
      ensures Meets(run, fates) && |run| == 3
    {
      hide Alone, Meets, CreateStep, DeleteStep, PurgeStep, ToggleStep, LifecycleStep, TopupStep;
      ghost var w := W();
      var days := 30;
      var plan := store.GetPlan(row.plan, fates(2).db);
      if plan.Some? && plan.value.days > 0 { days := plan.value.days; }
      clock := clock + fates(2).elapsed;
      endAt := clock + days * 86400;
      Step(w0, pc0, fates, was, w, Renew(sid, row, ReadItsPlan), fates(2));
      run := was + [fates(2)];
    }

    method StartPeriod(sid: Id, row: Row, endAt: int, ghost guessed: bool, fates: nat -> Fate,
        ghost w0: World, ghost pc0: Pc, ghost was: seq<Fate>)
      returns (ok: bool, ghost run: seq<Fate>)
      requires Alone(w0, pc0, was) == Outcome(W(), Some(Renew(sid, row, CallReset(endAt, guessed))))
      requires Meets(was, fates) && |was| == 3
      requires sid in store.subs && store.subs[sid] == row
      modifies this`book, store`subs, agents
      ensures Alone(w0, pc0, run) == Outcome(W(), None) && Meets(run, fates)
      ensures PeriodStarted(old(W()), W(), sid, endAt, fates, ok)
    {
      hide Alone, Meets, CreateStep, DeleteStep, PurgeStep, ToggleStep, LifecycleStep, TopupStep;
      ghost var w := W();
      ok := agents.ResetPeriod(row.At(), fates(3).reply);
      Step(w0, pc0, fates, was, w, Renew(sid, row, CallReset(endAt, guessed)), fates(3));
      book := Next(w, Renew(sid, row, CallReset(endAt, guessed)), fates(3)).world.book;
      run := was + [fates(3)];
      if !ok { return; }
      hide Next, RenewStep;
      ok, run := Extend(sid, row, endAt, guessed, fates, w0, pc0, run);
    }

    /** The node learns the new expiry, and then the row does. */
    method Extend(sid: Id, row: Row, endAt: int, ghost guessed: bool, fates: nat -> Fate,
        ghost w0: World, ghost pc0: Pc, ghost was: seq<Fate>)
      returns (ok: bool, ghost run: seq<Fate>)
      requires Alone(w0, pc0, was) == Outcome(W(), Some(Renew(sid, row, CallRenewed(endAt, guessed))))
      requires Meets(was, fates) && |was| == 4
      requires sid in store.subs && store.subs[sid] == row
      modifies this`book, store`subs, agents
      ensures Alone(w0, pc0, run) == Outcome(W(), None) && Meets(run, fates)
      ensures ok == (row.At() in old(agents.tenants) && fates(4).reply == Done && fates(5).db)
      ensures agents.tenants == if row.At() !in old(agents.tenants) || fates(4).reply == Refused
              then old(agents.tenants)
              else var t := old(agents.tenants)[row.At()];
                old(agents.tenants)[row.At() := t.(quota := row.quota, credit := row.credit, expire := endAt)]
      ensures store.subs == if !ok then old(store.subs) else old(store.subs)[sid :=
        row.(used := 0, period := row.period + 1, notified := 0, status := "active", endAt := endAt)]
    {
      hide Alone, Meets, CreateStep, DeleteStep, PurgeStep, ToggleStep, LifecycleStep, TopupStep;
      ghost var w := W();
      ok := agents.SetQuota(row.At(), row.quota, row.credit, endAt, fates(4).reply);
      Step(w0, pc0, fates, was, w, Renew(sid, row, CallRenewed(endAt, guessed)), fates(4));
      book := Next(w, Renew(sid, row, CallRenewed(endAt, guessed)), fates(4)).world.book;
      run := was + [fates(4)];
      if !ok { return; }
      w := W();
      ok := store.RenewSubscription(sid, endAt, fates(5).db);
      Step(w0, pc0, fates, run, w, Renew(sid, row, WriteRenewed(endAt, guessed)), fates(5));
      book := Next(w, Renew(sid, row, WriteRenewed(endAt, guessed)), fates(5)).world.book;
      run := run + [fates(5)];
    }

    // ---------- handlers on a customer ----------

    /** Every tenant must be gone before the customer is removed. */
    method DeleteCustomer(customer: Id, fates: nat -> Fate)
      returns (ok: bool, ghost run: seq<Fate>, ghost turns: Turns)
      modifies this`book, store`customers, store`subs, store`keys, agents
      ensures Serves(old(W()), Purge(customer, ListAll), fates, run, W())
      ensures Purged(old(W()), W(), customer, fates, turns, ok)
      ensures ok ==> customer in old(store.customers) && customer !in store.customers
      ensures ok ==> forall s | s in old(store.subs) && old(store.subs)[s].customer == customer
                                && old(store.subs)[s].tenant != 0 ::
                       old(store.subs)[s].At() !in agents.tenants
      ensures !ok ==> store.View() == old(store.View())
      ensures forall a | a in old(agents.tenants) && a !in agents.tenants ::
                exists s | s in old(store.subs) ::
                    old(store.subs)[s].At() == a && old(store.subs)[s].customer == customer
    {
      hide Alone, Meets, CreateStep, DeleteStep, ToggleStep, LifecycleStep, TopupStep, RenewStep;
      ok, turns := false, Turns(map[], 1);
      ghost var w0, pc0 := W(), Purge(customer, ListAll);
      run := [];
      Start(w0, pc0, fates);
      Step(w0, pc0, fates, run, w0, pc0, fates(0));
      run := run + [fates(0)];
      var listed := store.ListSubscriptionsByCustomer(customer, fates(0).db);
      if listed.None? { return; }
      assert listed.value == w0.db.OfCustomer(customer);
      ok, run, turns := Purging(customer, listed.value, fates, w0, pc0, run);
      hide Next;
      PurgeSpares(w0, W(), customer, fates, turns, ok);
      if ok { PurgeAmounts(w0, W(), customer, fates, turns, ok); }
    }

    /** The loop over the customer's subscriptions, and the delete after it. */
    method Purging(customer: Id, listed: map<Id, Row>, fates: nat -> Fate,
                   ghost w0: World, ghost pc0: Pc, ghost was: seq<Fate>)
      returns (ok: bool, ghost run: seq<Fate>, ghost turns: Turns)
      requires w0 == W() && |was| == 1 && fates(0).db
      requires Alone(w0, pc0, was) == Outcome(W(), Some(Purge(customer, Each(listed, {})))) && Meets(was, fates)
      requires forall s :: s in listed <==> Theirs(w0, customer, s)
      requires forall s | s in listed :: s in w0.db.subs && listed[s] == w0.db.subs[s]
      modifies this`book, store`customers, store`subs, store`keys, agents
      ensures Alone(w0, pc0, run) == Outcome(W(), None) && Meets(run, fates)
      ensures Purged(w0, W(), customer, fates, turns, ok)
    {
      hide Alone, Meets, Next, PurgeStep, Theirs, InTurn, EvictedEach, Evicted;
      var ids := store.Query(listed);
      var n := 1;
      run, turns := was, Turns(map[], 1);
      NobodyYet(w0, fates, 2);
      assert turns.of.Keys == {};
      for i := 0 to |ids|
        invariant n == |run| == turns.end && PurgedSoFar(w0, customer, listed, fates, pc0, run, turns)
        invariant turns.of.Keys == set k | 0 <= k < i :: ids[k]
      {
        var evicted;
        evicted, n, run, turns := EvictOne(customer, listed, ids[i], fates, n, w0, pc0, run, turns);
        if !evicted {
          ok := false;
          KeptCustomer(w0, W(), customer, fates, turns, ids[i]);
          return;
        }
      }
      assert turns.of.Keys == listed.Keys;
      ok := RemoveCustomer(customer, listed, fates, n, w0, pc0, run, turns);
      run := run + [fates(n)];
    }

    /** The turns so far have each been served, and everything but their tenants is as it was. */
    ghost predicate PurgedSoFar(w0: World, customer: Id, listed: map<Id, Row>, fates: nat -> Fate,
                                pc0: Pc, run: seq<Fate>, turns: Turns)
      reads this, store, agents
    {
      && W() == w0.(fleet := agents.tenants) && 1 <= turns.end && turns.of.Keys <= listed.Keys
      && Alone(w0, pc0, run) == Outcome(W(), Some(Purge(customer, Each(listed, turns.of.Keys)))) && Meets(run, fates)
      && InTurn(w0, fates, turns, 2) && EvictedEach(w0, W(), fates, turns.of)
      && (forall s | s in turns.of :: Evicted(w0, s, fates, turns.of[s]))
    }

    method RemoveCustomer(customer: Id, listed: map<Id, Row>, fates: nat -> Fate, n: nat,
                          ghost w0: World, ghost pc0: Pc, ghost run: seq<Fate>, ghost turns: Turns)
      returns (ok: bool)
      requires n == |run| == turns.end && fates(0).db && PurgedSoFar(w0, customer, listed, fates, pc0, run, turns)
      requires turns.of.Keys == listed.Keys && forall s :: s in listed <==> Theirs(w0, customer, s)
      modifies this`book, store`customers, store`subs, store`keys
      ensures Alone(w0, pc0, run + [fates(n)]) == Outcome(W(), None) && Meets(run + [fates(n)], fates)
      ensures Purged(w0, W(), customer, fates, turns, ok)
    {
      hide Alone, Meets, CreateStep, DeleteStep, ToggleStep, LifecycleStep, TopupStep, RenewStep;
      hide InTurn, EvictedEach, Evicted;
      ghost var w := W();
      ok := store.DeleteCustomer(customer, fates(n).db);
      Step(w0, pc0, fates, run, w, Purge(customer, Each(listed, turns.of.Keys)), fates(n));
      book := Next(w, Purge(customer, Each(listed, turns.of.Keys)), fates(n)).world.book;
      hide Next, PurgeStep;
      SameEvictions(w0, w, W(), fates, turns.of);
    }

    /** One iteration of the loop over the customer's subscriptions. */
    method EvictOne(customer: Id, listed: map<Id, Row>, sid: Id, fates: nat -> Fate, n: nat,
                    ghost w0: World, ghost pc0: Pc, ghost was: seq<Fate>, ghost turns: Turns)
      returns (evicted: bool, m: nat, ghost run: seq<Fate>, ghost turns': Turns)
      requires sid in listed && sid !in turns.of && n == |was| == turns.end
      requires sid in w0.db.subs && listed[sid] == w0.db.subs[sid]
      requires PurgedSoFar(w0, customer, listed, fates, pc0, was, turns)
      modifies agents
      ensures turns' == Turns(turns.of[sid := n], m) && m == |run|
      ensures evicted == Evicted(w0, sid, fates, n)
      ensures evicted ==> PurgedSoFar(w0, customer, listed, fates, pc0, run, turns')
      ensures W() == w0.(fleet := agents.tenants)
      ensures InTurn(w0, fates, turns', 2) && EvictedEach(w0, W(), fates, turns'.of)
      ensures !evicted ==> Alone(w0, pc0, run) == Outcome(W(), None) && Meets(run, fates)
    {
      hide Alone, Meets, InTurn, EvictedEach, Next;
      ghost var w := W();
      evicted, m, run := EvictTenant(customer, listed, sid, fates, n, turns.of.Keys, w0, pc0, was);
      turns' := Turns(turns.of[sid := n], m);
      assert turns.of.Keys + {sid} == turns'.of.Keys;
      EvictsOneMore(w0, w, W(), fates, turns.of, sid, n);
      NextTurn(w0, fates, turns, 2, sid, m);
    }

    method EvictTenant(customer: Id, listed: map<Id, Row>, sid: Id, fates: nat -> Fate, n: nat,
                       ghost done: set<Id>, ghost w0: World, ghost pc0: Pc, ghost was: seq<Fate>)
      returns (evicted: bool, m: nat, ghost run: seq<Fate>)
      requires sid in listed && sid !in done && n == |was|
      requires sid in w0.db.subs && listed[sid] == w0.db.subs[sid] && w0.db.nodes == store.nodes
      requires Alone(w0, pc0, was) == Outcome(W(), Some(Purge(customer, Each(listed, done)))) && Meets(was, fates)
      modifies agents
      ensures Alone(w0, pc0, run)
              == Outcome(W(), if evicted then Some(Purge(customer, Each(listed, done + {sid}))) else None)
      ensures Meets(run, fates) && m == |run| == n + if Reads(w0, sid, fates(n)) then 2 else 1
      ensures evicted == Evicted(w0, sid, fates, n) && EvictedOne(w0, old(W()), W(), fates, sid, n)
    {
      hide Alone, Meets, CreateStep, DeleteStep, ToggleStep, LifecycleStep, TopupStep, RenewStep, Cascade;
      ghost var w, f := W(), fates(n).(pick := sid);
      Step(w0, pc0, fates, was, w, Purge(customer, Each(listed, done)), f);
      run, m := was + [f], n + 1;
      var row := listed[sid];
      if row.tenant == 0 { return true, m, run; }
      var known := store.GetNode(row.node, fates(n).db);
      if !known { return false, m, run; }
      evicted := agents.Delete(row.At(), fates(m).reply);
      Step(w0, pc0, fates, run, w, Purge(customer, Evict(listed, done, sid)), fates(m));
      run, m := run + [fates(m)], m + 1;
    }

    /** Enables or disables: the tenants are switched as far as possible, whatever fails. */
    method ToggleCustomer(customer: Id, enable: bool, fates: nat -> Fate)
      returns (ok: bool, ghost run: seq<Fate>, ghost turns: Turns)
      modifies this`book, store`customers, store`subs, agents
      ensures Serves(old(W()), Toggle(customer, enable, ListThem), fates, run, W())
      ensures Toggled(old(W()), W(), customer, enable, fates, turns, ok)
      ensures ok ==> customer in store.customers && store.customers[customer] == if enable then "active" else "disabled"
      ensures fates(0).db ==> forall s | s in old(store.subs) && old(store.subs)[s].customer == customer ::
                s in turns.of
                && TurnTaken(old(W()), W(), if enable then "active" else "suspended", fates, s, turns.of[s])
      ensures forall s | s in old(store.subs) :: s in store.subs
                && (store.subs[s] == old(store.subs)[s]
                    || (old(store.subs)[s].customer == customer
                        && store.subs[s] == old(store.subs)[s].(status := if enable then "active" else "suspended")))
      ensures forall a | a in old(agents.tenants) :: a in agents.tenants
                && (agents.tenants[a] == old(agents.tenants)[a]
                    || (agents.tenants[a] == old(agents.tenants)[a].(status := if enable then "active" else "suspended")
                        && exists s | s in old(store.subs) ::
                             old(store.subs)[s].At() == a && old(store.subs)[s].customer == customer))
    {
      hide Alone, Meets, CreateStep, DeleteStep, PurgeStep, LifecycleStep, TopupStep, RenewStep;
      ghost var w0, pc0 := W(), Toggle(customer, enable, ListThem);
      run := [];
      Start(w0, pc0, fates);
      Step(w0, pc0, fates, run, w0, pc0, fates(0));
      run := run + [fates(0)];
      var listing := store.ListSubscriptionsByCustomer(customer, fates(0).db);
      var listed := if listing.Some? then listing.value else map[];
      assert listed == if fates(0).db then w0.db.OfCustomer(customer) else map[];
      hide Next, InTurn, Reads, SwitchedEach;
      ok, run, turns := Toggling(customer, enable, listed, fates, w0, pc0, run);
      ToggleAmounts(w0, W(), customer, enable, fates, turns, ok);
      hide TurnTaken;
    }

    /** The loop over the customer's subscriptions, and the customer's own status after it. */
    method Toggling(customer: Id, enable: bool, listed: map<Id, Row>, fates: nat -> Fate,
                    ghost w0: World, ghost pc0: Pc, ghost was: seq<Fate>)
      returns (ok: bool, ghost run: seq<Fate>, ghost turns: Turns)
      requires w0 == W() && |was| == 1
      requires Alone(w0, pc0, was) == Outcome(W(), Some(Toggle(customer, enable, Every(listed, {}))))
      requires Meets(was, fates)
      requires forall s :: s in listed <==> fates(0).db && Theirs(w0, customer, s)
      requires forall s | s in listed :: s in w0.db.subs && listed[s] == w0.db.subs[s]
      modifies this`book, store`customers, store`subs, agents
      ensures Alone(w0, pc0, run) == Outcome(W(), None) && Meets(run, fates)
      ensures Toggled(w0, W(), customer, enable, fates, turns, ok)
    {
      hide Alone, Meets, Next, ToggleStep, Theirs, InTurn, SwitchedEach;
      var ids := store.Query(listed);
      var n := 1;
      run, turns := was, Turns(map[], 1);
      NobodyYet(w0, fates, 3);
      assert turns.of.Keys == {};
      for i := 0 to |ids|
        invariant n == |run| == turns.end && ToggledSoFar(w0, customer, enable, listed, fates, pc0, run, turns)
        invariant turns.of.Keys == set k | 0 <= k < i :: ids[k]
      {
        n, run, turns := ToggleOne(customer, enable, listed, ids[i], fates, n, w0, pc0, run, turns);
      }
      assert turns.of.Keys == listed.Keys;
      ok, run := ToggleStatus(customer, enable, listed, fates, n, w0, pc0, run, turns);
    }

    /** The turns so far have each been served, and everything but their rows and tenants is as it was. */
    ghost predicate ToggledSoFar(w0: World, customer: Id, enable: bool, listed: map<Id, Row>, fates: nat -> Fate,
                                 pc0: Pc, run: seq<Fate>, turns: Turns)
      reads this, store, agents
    {
      && OnlyRows(w0, W()) && 1 <= turns.end && turns.of.Keys <= listed.Keys
      && Alone(w0, pc0, run) == Outcome(W(), Some(Toggle(customer, enable, Every(listed, turns.of.Keys))))
      && Meets(run, fates) && InTurn(w0, fates, turns, 3)
      && SwitchedEach(w0, W(), if enable then "active" else "suspended", fates, turns.of)
    }

    method ToggleStatus(customer: Id, enable: bool, listed: map<Id, Row>, fates: nat -> Fate, n: nat,
                        ghost w0: World, ghost pc0: Pc, ghost was: seq<Fate>, ghost turns: Turns)
      returns (ok: bool, ghost run: seq<Fate>)
      requires n == |was| == turns.end && ToggledSoFar(w0, customer, enable, listed, fates, pc0, was, turns)
      requires turns.of.Keys == listed.Keys && forall s :: s in listed <==> fates(0).db && Theirs(w0, customer, s)
      modifies this`book, store`customers
      ensures Alone(w0, pc0, run) == Outcome(W(), None) && Meets(run, fates)
      ensures Toggled(w0, W(), customer, enable, fates, turns, ok)
    {
      hide Alone, Meets, CreateStep, DeleteStep, PurgeStep, LifecycleStep, TopupStep, RenewStep;
      hide InTurn, SwitchedEach;
      ghost var w := W();
      var status := "disabled";
      if enable { status := "active"; }
      ok := store.SetCustomerStatus(customer, status, fates(n).db);
      Step(w0, pc0, fates, was, w, Toggle(customer, enable, Every(listed, turns.of.Keys)), fates(n));
      run := was + [fates(n)];
      SameSwitches(w0, w, W(), if enable then "active" else "suspended", fates, turns.of);
      if !ok { return; }
      w := W();
      ok := store.GetCustomer(customer, fates(n + 1).db);
      Step(w0, pc0, fates, run, w, Toggle(customer, enable, Confirm), fates(n + 1));
      run := run + [fates(n + 1)];
    }

    /** One iteration of the loop over the customer's subscriptions. */
    method ToggleOne(customer: Id, enable: bool, listed: map<Id, Row>, sid: Id, fates: nat -> Fate, n: nat,
                     ghost w0: World, ghost pc0: Pc, ghost was: seq<Fate>, ghost turns: Turns)
      returns (m: nat, ghost run: seq<Fate>, ghost turns': Turns)
      requires sid in listed && sid !in turns.of && n == |was| == turns.end
      requires sid in w0.db.subs && listed[sid] == w0.db.subs[sid]
      requires ToggledSoFar(w0, customer, enable, listed, fates, pc0, was, turns)
      modifies this`book, store`subs, agents
      ensures turns' == Turns(turns.of[sid := n], m) && m == |run|
      ensures ToggledSoFar(w0, customer, enable, listed, fates, pc0, run, turns')
    {
      hide Alone, Meets, Next, InTurn, SwitchedOne;
      ghost var w := W();
      assert sid in w.db.subs;
      hide SwitchedEach;
      m, run := ToggleRow(customer, enable, listed, sid, fates, n, turns.of.Keys, w0, pc0, was);
      turns' := Turns(turns.of[sid := n], m);
      assert turns.of.Keys + {sid} == turns'.of.Keys;
      SwitchesOneMore(w0, w, W(), if enable then "active" else "suspended", fates, turns.of, sid, n);
      NextTurn(w0, fates, turns, 3, sid, m);
    }

    method ToggleRow(customer: Id, enable: bool, listed: map<Id, Row>, sid: Id, fates: nat -> Fate, n: nat,
                     ghost done: set<Id>, ghost w0: World, ghost pc0: Pc, ghost was: seq<Fate>)
      returns (m: nat, ghost run: seq<Fate>)
      requires sid in listed && sid !in done && n == |was|
      requires sid in store.subs && sid in w0.db.subs && listed[sid] == w0.db.subs[sid] && w0.db.nodes == store.nodes
      requires Alone(w0, pc0, was) == Outcome(W(), Some(Toggle(customer, enable, Every(listed, done))))
      requires Meets(was, fates)
      modifies this`book, store`subs, agents
      ensures Alone(w0, pc0, run) == Outcome(W(), Some(Toggle(customer, enable, Every(listed, done + {sid}))))
      ensures Meets(run, fates) && m == |run| == n + if Reads(w0, sid, fates(n)) then 3 else 1
      ensures SwitchedOne(w0, old(W()), W(), if enable then "active" else "suspended", fates, sid, n)
    {
      hide Alone, Meets, CreateStep, DeleteStep, PurgeStep, LifecycleStep, TopupStep, RenewStep;
      ghost var w, f := W(), fates(n).(pick := sid);
      var row := listed[sid];
      var known := store.GetNode(row.node, fates(n).db);
      Step(w0, pc0, fates, was, w, Toggle(customer, enable, Every(listed, done)), f);
      run, m := was + [f], n + 1;
      if !known || row.tenant == 0 { return; }
      hide Next, ToggleStep;
      m, run := SwitchOne(customer, enable, listed, sid, fates, m, done, w0, pc0, run);
    }

    /** The node is told first; the row follows whatever the node replied. */
    method SwitchOne(customer: Id, enable: bool, listed: map<Id, Row>, sid: Id, fates: nat -> Fate, n: nat,
                     ghost done: set<Id>, ghost w0: World, ghost pc0: Pc, ghost was: seq<Fate>)
      returns (m: nat, ghost run: seq<Fate>)
      requires sid in listed && sid !in done && n == |was| && sid in store.subs
      requires Alone(w0, pc0, was) == Outcome(W(), Some(Toggle(customer, enable, CallNode(listed, done, sid))))
      requires Meets(was, fates)
      modifies this`book, store`subs, agents
      ensures Alone(w0, pc0, run) == Outcome(W(), Some(Toggle(customer, enable, Every(listed, done + {sid}))))
      ensures Meets(run, fates) && m == |run| == n + 2
      ensures var at, target := listed[sid].At(), if enable then "active" else "suspended";
        && agents.tenants == (if at in old(agents.tenants) && fates(n).reply != Refused
                              then old(agents.tenants)[at := old(agents.tenants)[at].(status := target)]
                              else old(agents.tenants))
        && store.subs == (if fates(n + 1).db then old(store.subs)[sid := old(store.subs)[sid].(status := target)]
                          else old(store.subs))
    {
      hide Alone, Meets, CreateStep, DeleteStep, PurgeStep, LifecycleStep, TopupStep, RenewStep;
      ghost var w := W();
      var status := "suspended";
      if enable { status := "active"; }
      var _ := agents.Switch(listed[sid].At(), status, fates(n).reply);
      Step(w0, pc0, fates, was, w, Toggle(customer, enable, CallNode(listed, done, sid)), fates(n));
      run, m := was + [fates(n)], n + 1;
      w := W();
      var _ := store.UpdateSubscriptionStatus(sid, status, fates(m).db);
      Step(w0, pc0, fates, run, w, Toggle(customer, enable, WriteRow(listed, done, sid)), fates(m));
      book := Next(w, Toggle(customer, enable, WriteRow(listed, done, sid)), fates(m)).world.book;
      run, m := run + [fates(m)], m + 1;
    }

    // ---------- plans and nodes ----------

    method DeletePlan(plan: Id, fates: nat -> Fate) returns (ok: bool, ghost run: seq<Fate>)
      modifies store`plans
      ensures Serves(old(W()), DropPlan(plan), fates, run, W())
      ensures ok == (fates(0).db && plan in old(store.plans)
                     && forall s | s in store.subs :: store.subs[s].plan != plan)
      ensures store.plans == if ok then old(store.plans) - {plan} else old(store.plans)
    {
      hide Alone, Meets;
      ghost var w0, pc0 := W(), DropPlan(plan);
      run := [];
      Start(w0, pc0, fates);
      ok := store.DeletePlan(plan, fates(0).db);
      Step(w0, pc0, fates, run, w0, pc0, fates(0));
      run := run + [fates(0)];
    }

    /** Fails closed: without a count of zero the node stays. */
    method DeleteNode(node: Id, fates: nat -> Fate) returns (ok: bool, ghost run: seq<Fate>)
      modifies store`nodes
      ensures Serves(old(W()), DropNodeCount(node), fates, run, W())
      ensures ok == (fates(0).db && fates(1).db && node in old(store.nodes)
                     && forall s | s in store.subs :: store.subs[s].node != node)
      ensures store.nodes == if ok then old(store.nodes) - {node} else old(store.nodes)
    {
      hide Alone, Meets;
      ok := false;
      ghost var w0, pc0 := W(), DropNodeCount(node);
      run := [];
      Start(w0, pc0, fates);
      var count := store.CountSubscriptionsByNode(node, fates(0).db);
      Step(w0, pc0, fates, run, w0, pc0, fates(0));
      run := run + [fates(0)];
      if count.None? { return; }
      if count.value > 0 { return; }
      ok := store.DeleteNode(node, fates(1).db);
      Step(w0, pc0, fates, run, w0, DropNode(node), fates(1));
      run := run + [fates(1)];
    }
  }
}
