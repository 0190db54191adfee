/**
 * What a request amounts to, column by column: the rows, the tenants and the answer, from the state
 * before it and from what befell its steps. No step of the machine is named here.
 */
module Outcomes {
  import opened Domain
  import opened Database
  import opened Protocol
  import opened Agreement
  import Threshold

  /** The request finds its subscription and the row of its node. */
  predicate Loads(w: World, sid: Id, fates: nat -> Fate) {
    fates(0).db && sid in w.db.subs && fates(1).db && w.db.subs[sid].node in w.db.nodes
  }

  /** No table but that of the subscriptions has changed, and no id was drawn. */
  ghost predicate OnlyRows(w: World, w': World) { w'.db == w.db.(subs := w'.db.subs) && w'.next == w.next }

  ghost predicate Unchanged(w: World, w': World) { w'.db == w.db && w'.fleet == w.fleet && w'.next == w.next }

  // ---------- suspend and resume ----------

  ghost predicate Switched(w: World, w': World, sid: Id, target: string, fates: nat -> Fate, ok: bool) {
    if !Loads(w, sid, fates) then !ok && Unchanged(w, w') && w'.book == w.book
    else
      var row := w.db.subs[sid];
      var at := row.At();
      && OnlyRows(w, w')
      && ok == (at in w.fleet && fates(2).reply == Done && fates(3).db)
      && w'.fleet == (if at in w.fleet && fates(2).reply != Refused
                      then w.fleet[at := w.fleet[at].(status := target)] else w.fleet)
      && w'.db.subs == (if ok then w.db.subs[sid := row.(status := target)] else w.db.subs)
      && w'.book.trail == w.book.trail
           + (if ok && target == "active" then [Activated(sid)] else [])
           + (if ok then [StatusSent(sid, target, false)] else [])
  }

  // ---------- top-up ----------

  /** The row as it is once the increment has been executed. */
  function Incremented(w: World, sid: Id, bytes: int): World
    requires sid in w.db.subs
  {
    var row := w.db.subs[sid];
    w.(db := w.db.(subs := w.db.subs[sid := row.(quota := Max(0, row.quota + bytes))]))
  }

  /** From there on: the node is given the row's quota, or the increment is taken back. */
  ghost predicate Shared(w: World, w': World, sid: Id, bytes: int, fates: nat -> Fate, ok: bool)
    requires sid in w.db.subs
  {
    var row := w.db.subs[sid];
    var at := row.At();
    && OnlyRows(w, w')
    && ok == (fates(3).db && at in w.fleet && fates(4).reply == Done)
    && w'.fleet == (if !fates(3).db || at !in w.fleet || fates(4).reply == Refused then w.fleet
                    else w.fleet[at := w.fleet[at].(
                      quota := row.quota, credit := row.credit, expire := row.endAt,
                      status := if ok && fates(5).reply != Refused then "active" else w.fleet[at].status)])
    && w'.db.subs == w.db.subs[sid :=
         if ok then row.(status := if fates(6).db then "active" else row.status,
                         notified := if fates(7).db then Threshold.Level(row.used, row.quota) else row.notified)
         else if fates(3).db && fates(5).db then row.(quota := Max(0, row.quota - bytes))
         else row]
  }

  /** The bookkeeping makes no difference. */
  lemma SharedAlike(w: World, v: World, w': World, sid: Id, bytes: int, fates: nat -> Fate, ok: bool)
    requires sid in w.db.subs && Shared(w, w', sid, bytes, fates, ok)
    requires v.db == w.db && v.fleet == w.fleet && v.next == w.next
    ensures Shared(v, w', sid, bytes, fates, ok)
  {}

  ghost predicate ToppedUp(w: World, w': World, sid: Id, bytes: int, fates: nat -> Fate, ok: bool) {
    if !Loads(w, sid, fates) || bytes <= 0 || !fates(2).db then !ok && Unchanged(w, w')
    else Shared(Incremented(w, sid, bytes), w', sid, bytes, fates, ok)
  }

  /** The row and its tenant have this quota. */
  ghost predicate Shares(w: World, sid: Id, at: Addr, quota: int) {
    sid in w.db.subs && w.db.subs[sid].quota == quota && at in w.fleet && w.fleet[at].quota == quota
  }

  /** The increment is executed, and then it cannot be read back or cannot be taken back. */
  predicate KeepsIncrement(w: World, sid: Id, bytes: int, fates: nat -> Fate) {
    Loads(w, sid, fates) && bytes > 0 && fates(2).db && (!fates(3).db || !fates(5).db)
  }

  /** Panel and node have the subscription, with the same quota, credit limit and expiry. */
  ghost predicate Agrees(w: World, sid: Id) { Live(w, sid) && Synced(w, sid) }

  /**
   * How a top-up leaves the two sides with different quotas: its increment is executed, and then
   * it cannot be read back, or the node refuses it and it cannot be taken back, or the node takes
   * it, the reply is lost, and it is taken back.
   */
  predicate TopupSplits(w: World, sid: Id, bytes: int, fates: nat -> Fate) {
    && Loads(w, sid, fates) && bytes > 0 && fates(2).db
    && (|| !fates(3).db
        || (fates(4).reply == Refused && !fates(5).db)
        || (fates(4).reply == Lost && fates(5).db))
  }

  lemma TopupAmounts(w: World, w': World, sid: Id, bytes: int, fates: nat -> Fate, ok: bool)
    requires ToppedUp(w, w', sid, bytes, fates, ok)
    ensures ok ==> sid in w.db.subs && bytes > 0 && Agrees(w', sid)
                   && Shares(w', sid, w.db.subs[sid].At(), Max(0, w.db.subs[sid].quota + bytes))
    ensures !ok && (sid in w.db.subs ==> w.db.subs[sid].quota >= 0)
            ==> (w'.db != w.db <==> KeepsIncrement(w, sid, bytes, fates))
  {
    hide Threshold.Level;
    if sid in w.db.subs {
      var row := w.db.subs[sid];
      assert w.db.subs[sid := row] == w.db.subs;
      assert w.db.subs[sid := row.(quota := Max(0, row.quota + bytes))][sid := row] == w.db.subs;
    }
  }

  lemma TopupSplitsExactly(w: World, w': World, sid: Id, bytes: int, fates: nat -> Fate, ok: bool)
    requires ToppedUp(w, w', sid, bytes, fates, ok) && Agrees(w, sid) && w.db.subs[sid].quota >= 0
    ensures Live(w', sid) && (Agrees(w', sid) <==> !TopupSplits(w, sid, bytes, fates))
  {
    hide Threshold.Level;
  }

  // ---------- renewal ----------

  /** The expiry that a renewal computes. */
  function NewEnd(w: World, row: Row, f: Fate): int {
    var days := if f.db && row.plan in w.db.plans && w.db.plans[row.plan].days > 0
                then w.db.plans[row.plan].days else 30;
    w.clock + f.elapsed + days * 86400
  }

  ghost predicate PeriodStarted(w: World, w': World, sid: Id, endAt: int, fates: nat -> Fate, ok: bool)
    requires sid in w.db.subs
  {
    var row := w.db.subs[sid];
    var at := row.At();
    && OnlyRows(w, w') && w'.clock == w.clock
    && ok == (at in w.fleet && fates(3).reply == Done && fates(4).reply == Done && fates(5).db)
    && w'.fleet == (if at !in w.fleet || fates(3).reply == Refused then w.fleet
                    else
                      var t := w.fleet[at].(resets := w.fleet[at].resets + 1, used := 0, status := "active");
                      w.fleet[at := if fates(3).reply == Done && fates(4).reply != Refused
                                    then t.(quota := row.quota, credit := row.credit, expire := endAt) else t])
    && w'.db.subs == (if ok then w.db.subs[sid := row.(used := 0, period := row.period + 1, notified := 0,
                                                       status := "active", endAt := endAt)] else w.db.subs)
  }

  ghost predicate PeriodRenewed(w: World, w': World, sid: Id, fates: nat -> Fate, ok: bool) {
    if !Loads(w, sid, fates) then !ok && Unchanged(w, w') && w'.clock == w.clock
    else PeriodStarted(w.(clock := w.clock + fates(2).elapsed), w', sid, NewEnd(w, w.db.subs[sid], fates(2)), fates, ok)
  }

  /**
   * How a renewal leaves the two sides with different expiries: the node has taken the new one, and
   * then the reply is lost or the row cannot be written, and it is not the very expiry on record.
   */
  predicate RenewalSplits(w: World, sid: Id, fates: nat -> Fate) {
    && Loads(w, sid, fates) && fates(3).reply == Done && fates(4).reply != Refused
    && (fates(4).reply == Lost || !fates(5).db) && NewEnd(w, w.db.subs[sid], fates(2)) != w.db.subs[sid].endAt
  }

  lemma RenewalAmounts(w: World, w': World, sid: Id, fates: nat -> Fate, ok: bool)
    requires PeriodRenewed(w, w', sid, fates, ok)
    ensures ok ==> sid in w.db.subs && Agrees(w', sid) && w'.db.subs[sid].period == w.db.subs[sid].period + 1
    ensures !ok ==> w'.db == w.db
    ensures Agrees(w, sid) ==> Live(w', sid) && (Agrees(w', sid) <==> !RenewalSplits(w, sid, fates))
  {}

  // ---------- create and delete ----------

  /** The request's customer, plan and node are found. */
  predicate Finds(w: World, customer: Id, planId: Id, node: Id, fates: nat -> Fate) {
    && fates(0).db && customer in w.db.customers && fates(1).db && planId in w.db.plans
    && fates(2).db && node in w.db.nodes
  }

  /** The row that the request and the plan prescribe, starting now. */
  function Ordered(w: World, customer: Id, planId: Id, node: Id, credit: int, now: int): Row
    requires planId in w.db.plans
  {
    var plan := w.db.plans[planId];
    Row(customer, planId, node, w.next, "active", 1, now, now + plan.days * 86400, plan.quota, 0, credit, 0)
  }

  /** What is left of a create of this row and this customer's key: everything, or what could not be taken back. */
  ghost predicate Enrolled(w: World, w': World, row: Row, fates: nat -> Fate, sid: Option<Id>) {
    var at := row.At();
    var born := w.fleet[at := Tenant(row.quota, row.credit, row.endAt, 0, 0, "active")];
    var key, id := w.next + 1, w.next + 2;
    && w'.db == w.db.(subs := w'.db.subs, keys := w'.db.keys)
    && sid == (if fates(3).reply == Done && fates(4).db && fates(5).db then Some(id) else None)
    && w'.next == (if fates(3).reply == Done && fates(4).db then w.next + 3 else w.next + 2)
    && w'.db.keys == (if sid.Some? then w.db.keys[key := row.customer] else w.db.keys)
    && w'.db.subs == (if sid.Some? then w.db.subs[id := row]
                      else if fates(3).reply == Done && fates(4).db
                      then (if fates(7).db then w.db.subs[id := row] - {id} else w.db.subs[id := row])
                      else w.db.subs)
    && w'.fleet == (if fates(3).reply == Refused then w.fleet
                    else if fates(3).reply == Lost || sid.Some? then born
                    else if fates(if fates(4).db then 6 else 5).reply == Refused then born
                    else born - {at})
  }

  ghost predicate Created(w: World, w': World, customer: Id, planId: Id, node: Id, credit: int,
                          fates: nat -> Fate, sid: Option<Id>) {
    if !Finds(w, customer, planId, node, fates) then sid == None && Unchanged(w, w') && w'.clock == w.clock
    else
      var now := w.clock + fates(2).elapsed;
      w'.clock == now && Enrolled(w, w', Ordered(w, customer, planId, node, credit, now), fates, sid)
  }

  /**
   * The row is stored as the request and the plan say, its tenant is live with the same terms, and
   * the key is the customer's.
   */
  ghost predicate Provisioned(w: World, sid: Id, customer: Id, planId: Id, node: Id, credit: int, plan: Plan,
                              tenant: Id) {
    var endAt := w.clock + plan.days * 86400;
    && sid in w.db.subs
    && w.db.subs[sid] == Row(customer, planId, node, tenant, "active", 1, w.clock, endAt, plan.quota, 0, credit, 0)
    && Addr(node, tenant) in w.fleet
    && w.fleet[Addr(node, tenant)] == Tenant(plan.quota, credit, endAt, 0, 0, "active")
    && exists k :: k in w.db.keys && w.db.keys[k] == customer
  }

  lemma CreateAmounts(w: World, w': World, customer: Id, planId: Id, node: Id, credit: int,
                      fates: nat -> Fate, sid: Option<Id>)
    requires Created(w, w', customer, planId, node, credit, fates, sid) && sid.Some?
    ensures planId in w.db.plans
    ensures Provisioned(w', sid.value, customer, planId, node, credit, w.db.plans[planId], w.next)
  {
    assert w'.db.keys[w.next + 1] == customer;
  }

  /** A delete that finds the row and, if there is a tenant, its node. */
  predicate Deprovisions(w: World, sid: Id, fates: nat -> Fate) {
    && fates(0).db && sid in w.db.subs
    && (w.db.subs[sid].tenant != 0 ==> fates(1).db && w.db.subs[sid].node in w.db.nodes)
  }

  /** The node's delete comes first, and only after it the row goes. */
  ghost predicate Deleted(w: World, w': World, sid: Id, fates: nat -> Fate, ok: bool) {
    if !Deprovisions(w, sid, fates) then !ok && Unchanged(w, w')
    else
      var row := w.db.subs[sid];
      && OnlyRows(w, w')
      && ok == (if row.tenant == 0 then fates(1).db else fates(2).reply == Done && fates(3).db)
      && w'.fleet == (if row.tenant == 0 || fates(2).reply == Refused then w.fleet else w.fleet - {row.At()})
      && w'.db.subs == (if ok then w.db.subs - {sid} else w.db.subs)
  }

  // ---------- handlers on a customer ----------

  /**
   * When the loop over a customer's subscriptions came to each of them, counted in steps, and when
   * it was over.
   */
  datatype Turns = Turns(of: map<Id, nat>, end: nat)

  /** The loop goes on to the node: there is a tenant, and its node's row can be read. */
  predicate Reads(w: World, s: Id, f: Fate) {
    s in w.db.subs && w.db.subs[s].tenant != 0 && f.db && w.db.subs[s].node in w.db.nodes
  }

  predicate Theirs(w: World, customer: Id, s: Id) { s in w.db.subs && w.db.subs[s].customer == customer }

  /** Turns follow one another; one that goes on to the node takes `length` steps. */
  ghost predicate InTurn(w: World, fates: nat -> Fate, turns: Turns, length: nat) {
    && (forall s | s in turns.of ::
          1 <= turns.of[s] && turns.of[s] + (if Reads(w, s, fates(turns.of[s])) then length else 1) <= turns.end)
    && (forall s, t | s in turns.of && t in turns.of && turns.of[s] < turns.of[t] ::
          turns.of[s] + (if Reads(w, s, fates(turns.of[s])) then length else 1) <= turns.of[t])
    && (forall s, t | s in turns.of && t in turns.of && s != t :: turns.of[s] != turns.of[t])
  }

  /** At its turn the subscription's node was asked to do this to the tenant there, and did. */
  predicate Reached(w: World, s: Id, a: Addr, fates: nat -> Fate, n: nat) {
    Reads(w, s, fates(n)) && w.db.subs[s].At() == a && fates(n + 1).reply != Refused
  }

  /** The rows and tenants after these turns of an enabling or disabling. */
  ghost predicate SwitchedEach(w: World, w': World, target: string, fates: nat -> Fate, of: map<Id, nat>) {
    && w'.db.subs.Keys == w.db.subs.Keys && w'.fleet.Keys == w.fleet.Keys
    && (forall s | s in w.db.subs ::
          w'.db.subs[s] == w.db.subs[s].(
            status := if s in of && Reads(w, s, fates(of[s])) && fates(of[s] + 2).db then target
                      else w.db.subs[s].status))
    && (forall a | a in w.fleet ::
          w'.fleet[a] == w.fleet[a].(
            status := if exists s | s in of :: Reached(w, s, a, fates, of[s]) then target else w.fleet[a].status))
  }

  /** One turn of an enabling or disabling. */
  ghost predicate SwitchedOne(w: World, w1: World, w2: World, target: string, fates: nat -> Fate, s: Id, n: nat)
    requires s in w.db.subs && s in w1.db.subs
  {
    var at := w.db.subs[s].At();
    if !Reads(w, s, fates(n)) then w2.db.subs == w1.db.subs && w2.fleet == w1.fleet
    else
      && w2.fleet == (if at in w1.fleet && fates(n + 1).reply != Refused
                      then w1.fleet[at := w1.fleet[at].(status := target)] else w1.fleet)
      && w2.db.subs == (if fates(n + 2).db then w1.db.subs[s := w1.db.subs[s].(status := target)] else w1.db.subs)
  }

  lemma SwitchesOneMore(w: World, w1: World, w2: World, target: string, fates: nat -> Fate,
                        of: map<Id, nat>, s: Id, n: nat)
    requires s in w.db.subs && s !in of && SwitchedEach(w, w1, target, fates, of)
    requires SwitchedOne(w, w1, w2, target, fates, s, n)
    ensures SwitchedEach(w, w2, target, fates, of[s := n])
  {
    hide Reached, Reads, SwitchedOne;
    RowsSwitchedMore(w, w1, w2, target, fates, of, s, n);
    TenantsSwitchedMore(w, w1, w2, target, fates, of, s, n);
  }

  lemma RowsSwitchedMore(w: World, w1: World, w2: World, target: string, fates: nat -> Fate,
                         of: map<Id, nat>, s: Id, n: nat)
    requires s in w.db.subs && s in w1.db.subs && s !in of && SwitchedEach(w, w1, target, fates, of)
    requires SwitchedOne(w, w1, w2, target, fates, s, n)
    ensures w2.db.subs.Keys == w.db.subs.Keys && w2.fleet.Keys == w.fleet.Keys
    ensures var more := of[s := n]; forall t | t in w.db.subs ::
      t in w2.db.subs && w2.db.subs[t] == w.db.subs[t].(
        status := if t in more && Reads(w, t, fates(more[t])) && fates(more[t] + 2).db
                  then target else w.db.subs[t].status)
  {
    hide Reached, Reads, SwitchedOne;
    OneSwitched(w, w1, w2, target, fates, s, n);
  }

  lemma TenantsSwitchedMore(w: World, w1: World, w2: World, target: string, fates: nat -> Fate,
                            of: map<Id, nat>, s: Id, n: nat)
    requires s in w.db.subs && s in w1.db.subs && s !in of && SwitchedEach(w, w1, target, fates, of)
    requires SwitchedOne(w, w1, w2, target, fates, s, n)
    ensures var more := of[s := n]; forall a | a in w.fleet ::
      a in w2.fleet && w2.fleet[a] == w.fleet[a].(
        status := if exists t | t in more :: Reached(w, t, a, fates, more[t]) then target else w.fleet[a].status)
  {
    var more := of[s := n];
    hide Reached, Reads, SwitchedOne;
    OneSwitched(w, w1, w2, target, fates, s, n);
    forall a | a in w.fleet
      ensures w2.fleet[a] == w.fleet[a].(
        status := if exists t | t in more :: Reached(w, t, a, fates, more[t]) then target else w.fleet[a].status)
    {
      OneMoreReached(w, fates, of, s, n, a);
    }
  }

  lemma OneSwitched(w: World, w1: World, w2: World, target: string, fates: nat -> Fate, s: Id, n: nat)
    requires s in w.db.subs && s in w1.db.subs && SwitchedOne(w, w1, w2, target, fates, s, n)
    ensures w2.fleet.Keys == w1.fleet.Keys && w2.db.subs.Keys == w1.db.subs.Keys
    ensures forall a | a in w1.fleet ::
              w2.fleet[a] == w1.fleet[a].(status := if Reached(w, s, a, fates, n) then target else w1.fleet[a].status)
    ensures forall t | t in w1.db.subs ::
              w2.db.subs[t] == w1.db.subs[t].(
                status := if t == s && Reads(w, s, fates(n)) && fates(n + 2).db then target else w1.db.subs[t].status)
  {
    hide Reads;
  }

  lemma OneMoreReached(w: World, fates: nat -> Fate, of: map<Id, nat>, s: Id, n: nat, a: Addr)
    requires s !in of
    ensures var more := of[s := n];
      (exists t | t in more :: Reached(w, t, a, fates, more[t]))
      <==> (exists t | t in of :: Reached(w, t, a, fates, of[t])) || Reached(w, s, a, fates, n)
  {
    var more := of[s := n];
    hide Reached;
    assert more[s] == n && forall t | t in of :: t in more && more[t] == of[t];
  }

  lemma NextTurn(w: World, fates: nat -> Fate, turns: Turns, length: nat, s: Id, end: nat)
    requires InTurn(w, fates, turns, length) && s !in turns.of && 1 <= turns.end
    requires turns.end + (if Reads(w, s, fates(turns.end)) then length else 1) <= end && length >= 1
    ensures InTurn(w, fates, Turns(turns.of[s := turns.end], end), length)
  {
    hide Reads;
  }

  /** Enabling switches everything of the customer's to "active", disabling to "suspended", as far as steps succeed. */
  ghost predicate Toggled(w: World, w': World, customer: Id, enable: bool, fates: nat -> Fate, turns: Turns, ok: bool) {
    && w'.db == w.db.(subs := w'.db.subs, customers := w'.db.customers) && w'.next == w.next
    && InTurn(w, fates, turns, 3)
    && (forall s :: s in turns.of <==> fates(0).db && Theirs(w, customer, s))
    && SwitchedEach(w, w', if enable then "active" else "suspended", fates, turns.of)
    && w'.db.customers == (if fates(turns.end).db && customer in w.db.customers
                           then w.db.customers[customer := if enable then "active" else "disabled"]
                           else w.db.customers)
    && ok == (fates(turns.end).db && customer in w.db.customers && fates(turns.end + 1).db)
  }

  /** The tenants left after these turns of a purge. */
  ghost predicate EvictedEach(w: World, w': World, fates: nat -> Fate, of: map<Id, nat>) {
    && (forall a :: a in w'.fleet <==> a in w.fleet && !(exists s | s in of :: Reached(w, s, a, fates, of[s])))
    && (forall a | a in w'.fleet :: w'.fleet[a] == w.fleet[a])
  }

  /** One turn of a purge. */
  ghost predicate EvictedOne(w: World, w1: World, w2: World, fates: nat -> Fate, s: Id, n: nat)
    requires s in w.db.subs
  {
    w2.fleet == if Reads(w, s, fates(n)) && fates(n + 1).reply != Refused
                then w1.fleet - {w.db.subs[s].At()} else w1.fleet
  }

  lemma EvictsOneMore(w: World, w1: World, w2: World, fates: nat -> Fate, of: map<Id, nat>, s: Id, n: nat)
    requires s in w.db.subs && s !in of && EvictedEach(w, w1, fates, of) && EvictedOne(w, w1, w2, fates, s, n)
    ensures EvictedEach(w, w2, fates, of[s := n])
  {
    hide EvictedOne, Reached, Reads;
    forall a
      ensures a in w2.fleet <==> a in w1.fleet && !Reached(w, s, a, fates, n)
    { OneEvicted(w, w1, w2, fates, s, n, a); }
    forall a | a in w2.fleet ensures w2.fleet[a] == w1.fleet[a] { OneEvicted(w, w1, w2, fates, s, n, a); }
    var more := of[s := n];
    forall a ensures a in w2.fleet <==> a in w.fleet && !(exists t | t in more :: Reached(w, t, a, fates, more[t])) {
      OneMoreReached(w, fates, of, s, n, a);
    }
  }

  lemma OneEvicted(w: World, w1: World, w2: World, fates: nat -> Fate, s: Id, n: nat, a: Addr)
    requires s in w.db.subs && EvictedOne(w, w1, w2, fates, s, n)
    ensures a in w2.fleet <==> a in w1.fleet && !Reached(w, s, a, fates, n)
    ensures a in w2.fleet ==> w2.fleet[a] == w1.fleet[a]
  {
    hide Reads;
  }

  /** Nothing was left to do on a node for this subscription, or its delete was confirmed. */
  predicate Evicted(w: World, s: Id, fates: nat -> Fate, n: nat) {
    s in w.db.subs && (w.db.subs[s].tenant == 0 || (Reads(w, s, fates(n)) && fates(n + 1).reply == Done))
  }

  /**
   * Evicts the tenants of this customer's and no others; only if all were confirmed does the customer
   * go, and with it just its own subscriptions and keys.
   */
  ghost predicate Purged(w: World, w': World, customer: Id, fates: nat -> Fate, turns: Turns, ok: bool) {
    && w'.next == w.next && InTurn(w, fates, turns, 2)
    && (forall s | s in turns.of :: fates(0).db && Theirs(w, customer, s))
    && EvictedEach(w, w', fates, turns.of)
    && ok == (&& fates(0).db
              && (forall s | Theirs(w, customer, s) :: s in turns.of && Evicted(w, s, fates, turns.of[s]))
              && fates(turns.end).db && customer in w.db.customers)
    && (if !ok then w'.db == w.db
        else
          && w'.db.plans == w.db.plans && w'.db.nodes == w.db.nodes
          && w'.db.customers == w.db.customers - {customer}
          && (forall s :: s in w'.db.subs <==> s in w.db.subs && w.db.subs[s].customer != customer)
          && (forall s | s in w'.db.subs :: w'.db.subs[s] == w.db.subs[s])
          && (forall k :: k in w'.db.keys <==> k in w.db.keys && w.db.keys[k] != customer)
          && (forall k | k in w'.db.keys :: w'.db.keys[k] == w.db.keys[k]))
  }

  // ---------- how the turns of a loop add up ----------

  lemma NobodyYet(w: World, fates: nat -> Fate, length: nat)
    ensures InTurn(w, fates, Turns(map[], 1), length) && EvictedEach(w, w, fates, map[])
    ensures forall target :: SwitchedEach(w, w, target, fates, map[])
  {}

  lemma SameEvictions(w: World, w1: World, w2: World, fates: nat -> Fate, of: map<Id, nat>)
    requires EvictedEach(w, w1, fates, of) && w2.fleet == w1.fleet
    ensures EvictedEach(w, w2, fates, of)
  {
    hide Reached;
  }

  lemma SameSwitches(w: World, w1: World, w2: World, target: string, fates: nat -> Fate, of: map<Id, nat>)
    requires SwitchedEach(w, w1, target, fates, of) && w2.fleet == w1.fleet && w2.db.subs == w1.db.subs
    ensures SwitchedEach(w, w2, target, fates, of)
  {
    hide Reached, Reads;
  }

  /** A subscription whose tenant's delete was not confirmed keeps its customer. */
  lemma KeptCustomer(w: World, w': World, customer: Id, fates: nat -> Fate, turns: Turns, s: Id)
    requires w'.db == w.db && w'.next == w.next && InTurn(w, fates, turns, 2) && EvictedEach(w, w', fates, turns.of)
    requires fates(0).db && forall t | t in turns.of :: Theirs(w, customer, t)
    requires s in turns.of && !Evicted(w, s, fates, turns.of[s])
    ensures Purged(w, w', customer, fates, turns, false)
  {
    hide InTurn, EvictedEach, Evicted;
  }

  lemma PurgeSpares(w: World, w': World, customer: Id, fates: nat -> Fate, turns: Turns, ok: bool)
    requires Purged(w, w', customer, fates, turns, ok)
    ensures forall a | a in w.fleet && a !in w'.fleet ::
              exists s | s in w.db.subs :: w.db.subs[s].At() == a && w.db.subs[s].customer == customer
  {
    hide InTurn, Evicted;
  }

  lemma PurgeAmounts(w: World, w': World, customer: Id, fates: nat -> Fate, turns: Turns, ok: bool)
    requires Purged(w, w', customer, fates, turns, ok) && ok
    ensures customer in w.db.customers && customer !in w'.db.customers
    ensures forall s | s in w.db.subs && w.db.subs[s].customer == customer && w.db.subs[s].tenant != 0 ::
              w.db.subs[s].At() !in w'.fleet
  {
    hide InTurn;
    forall s | s in w.db.subs && w.db.subs[s].customer == customer && w.db.subs[s].tenant != 0
      ensures w.db.subs[s].At() !in w'.fleet
    {
      assert Theirs(w, customer, s);
      assert s in turns.of && Reached(w, s, w.db.subs[s].At(), fates, turns.of[s]);
    }
  }

  /** A row's turn, when the loop went on to its node, and what came of it there and on the row. */
  ghost predicate TurnTaken(w: World, w': World, target: string, fates: nat -> Fate, s: Id, n: nat)
    requires s in w.db.subs
  {
    var at := w.db.subs[s].At();
    w.db.subs[s].tenant != 0 && w.db.subs[s].node in w.db.nodes && fates(n).db ==>
      && (at in w.fleet && fates(n + 1).reply != Refused ==> at in w'.fleet && w'.fleet[at].status == target)
      && (fates(n + 2).db ==> s in w'.db.subs && w'.db.subs[s].status == target)
  }

  lemma ToggleAmounts(w: World, w': World, customer: Id, enable: bool, fates: nat -> Fate, turns: Turns, ok: bool)
    requires Toggled(w, w', customer, enable, fates, turns, ok)
    ensures var target := if enable then "active" else "suspended";
      && (fates(0).db ==> forall s | s in w.db.subs && w.db.subs[s].customer == customer ::
            s in turns.of && TurnTaken(w, w', target, fates, s, turns.of[s]))
      && (forall s | s in w.db.subs :: s in w'.db.subs
            && (w'.db.subs[s] == w.db.subs[s]
                || (w.db.subs[s].customer == customer && w'.db.subs[s] == w.db.subs[s].(status := target))))
      && (forall a | a in w.fleet :: a in w'.fleet
            && (w'.fleet[a] == w.fleet[a]
                || (w'.fleet[a] == w.fleet[a].(status := target)
                    && exists s | s in w.db.subs :: w.db.subs[s].At() == a && w.db.subs[s].customer == customer)))
  {
    hide InTurn;
    var target := if enable then "active" else "suspended";
    forall s | fates(0).db && s in w.db.subs && w.db.subs[s].customer == customer
      ensures s in turns.of && TurnTaken(w, w', target, fates, s, turns.of[s])
    {
      assert Theirs(w, customer, s);
      hide Theirs;
      TurnWasTaken(w, w', target, fates, turns.of, s);
    }
    forall s | s in turns.of ensures Theirs(w, customer, s) {}
    hide TurnTaken, Reads;
    TenantsToggled(w, w', customer, target, fates, turns.of);
    hide Reached;
  }

  lemma TurnWasTaken(w: World, w': World, target: string, fates: nat -> Fate, of: map<Id, nat>, s: Id)
    requires s in w.db.subs && s in of && SwitchedEach(w, w', target, fates, of)
    ensures TurnTaken(w, w', target, fates, s, of[s])
  {
    var at := w.db.subs[s].At();
    if Reads(w, s, fates(of[s])) && fates(of[s] + 1).reply != Refused { assert Reached(w, s, at, fates, of[s]); }
    hide Reached;
  }

  lemma TenantsToggled(w: World, w': World, customer: Id, target: string, fates: nat -> Fate, of: map<Id, nat>)
    requires SwitchedEach(w, w', target, fates, of) && forall s | s in of :: Theirs(w, customer, s)
    ensures forall a | a in w.fleet ::
              && a in w'.fleet
              && (w'.fleet[a] == w.fleet[a]
                  || (w'.fleet[a] == w.fleet[a].(status := target)
                      && exists s | s in w.db.subs :: w.db.subs[s].At() == a && w.db.subs[s].customer == customer))
  {
    forall a | a in w.fleet && w'.fleet[a] != w.fleet[a]
      ensures exists s | s in w.db.subs :: w.db.subs[s].At() == a && w.db.subs[s].customer == customer
    {
      var s :| s in of && Reached(w, s, a, fates, of[s]);
      assert Theirs(w, customer, s);
    }
    hide Reached, Reads;
  }
}
