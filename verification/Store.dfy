/**
 * The panel's store and the agents on its nodes, as objects that their methods update. The `up`
 * argument of a store method says whether the database carries out the statement; the `reply`
 * argument of a node call is what becomes of the call.
 */
module Store {
  import opened Domain
  import opened Database
  import opened Protocol

  class Store {
    var customers: map<Id, string>
    var plans: map<Id, Plan>
    var nodes: set<Id>
    var subs: map<Id, Row>
    var keys: map<Id, Id>
    var samples: seq<Sample>         // usage_records, in the order of insertion

    function View(): DB
      reads this
    {
      DB(customers, plans, nodes, subs, keys)
    }

    constructor ()
      ensures View() == DB(map[], map[], {}, map[], map[]) && samples == []
    {
      customers, plans, nodes, subs, keys, samples := map[], map[], {}, map[], map[], [];
    }

    method GetCustomer(id: Id, up: bool) returns (ok: bool)
      ensures ok <==> up && id in customers
    {
      ok := up && id in customers;
    }

    method GetPlan(id: Id, up: bool) returns (plan: Option<Plan>)
      ensures plan == if up && id in plans then Some(plans[id]) else None
    {
      if up && id in plans { plan := Some(plans[id]); } else { plan := None; }
    }

    method GetNode(id: Id, up: bool) returns (ok: bool)
      ensures ok <==> up && id in nodes
    {
      ok := up && id in nodes;
    }

    method GetSubscription(id: Id, up: bool) returns (row: Option<Row>)
      ensures row == if up && id in subs then Some(subs[id]) else None
    {
      if up && id in subs { row := Some(subs[id]); } else { row := None; }
    }

    method CreateCustomer(id: Id, up: bool) returns (ok: bool)
      modifies `customers
      ensures ok == up && customers == if ok then old(customers)[id := "active"] else old(customers)
    {
      ok := up;
      if ok { customers := customers[id := "active"]; }
    }

    method CreatePlan(id: Id, plan: Plan, up: bool) returns (ok: bool)
      modifies `plans
      ensures ok == up && plans == if ok then old(plans)[id := plan] else old(plans)
    {
      ok := up;
      if ok { plans := plans[id := plan]; }
    }

    method CreateNode(id: Id, up: bool) returns (ok: bool)
      modifies `nodes
      ensures ok == up && nodes == if ok then old(nodes) + {id} else old(nodes)
    {
      ok := up;
      if ok { nodes := nodes + {id}; }
    }

    /** A customer's subscriptions. */
    method ListSubscriptionsByCustomer(customer: Id, up: bool) returns (rows: Option<map<Id, Row>>)
      ensures rows.Some? == up
      ensures up ==> forall s :: s in rows.value <==> s in subs && subs[s].customer == customer
      ensures up ==> forall s | s in rows.value :: rows.value[s] == subs[s]
    {
      if up { rows := Some(View().OfCustomer(customer)); } else { rows := None; }
    }

    /** What the collector polls: subscriptions with a tenant that are active. */
    method ListActiveSubscriptions(up: bool) returns (rows: Option<map<Id, Row>>)
      ensures rows.Some? == up
      ensures up ==> forall s :: s in rows.value <==> s in subs && subs[s].tenant != 0 && subs[s].status == "active"
      ensures up ==> forall s | s in rows.value :: rows.value[s] == subs[s]
    {
      if up { rows := Some(View().Active()); } else { rows := None; }
    }

    /** The rows that satisfy a query, each once, in some order. */
    method Query(rows: map<Id, Row>) returns (ids: seq<Id>)
      ensures forall id :: id in ids <==> id in rows
      ensures forall i, j | 0 <= i < j < |ids| :: ids[i] != ids[j]
    {
      ids := [];
      var rest := rows.Keys;
      while rest != {}
        invariant rest <= rows.Keys
        invariant forall id :: id in ids <==> id in rows && id !in rest
        invariant forall i, j | 0 <= i < j < |ids| :: ids[i] != ids[j]
        decreases |rest|
      {
        var id :| id in rest;
        ids, rest := ids + [id], rest - {id};
      }
    }

    method CreateSubscription(id: Id, row: Row, up: bool) returns (ok: bool)
      modifies `subs
      ensures ok <==> up && old(View()).CanInsert(row)
      ensures View() == if ok then old(View()).Insert(id, row) else old(View())
      ensures subs == if ok then old(subs)[id := row] else old(subs)
    {
      ok := up && row.customer in customers && row.plan in plans && row.node in nodes;
      if ok { subs := subs[id := row]; }
    }

    method CreateAPIKey(key: Id, customer: Id, up: bool) returns (ok: bool)
      modifies `keys
      ensures ok <==> up && customer in customers
      ensures View() == if ok then old(View()).InsertKey(key, customer) else old(View())
      ensures keys == if ok then old(keys)[key := customer] else old(keys)
    {
      ok := up && customer in customers;
      if ok { keys := keys[key := customer]; }
    }

    /** The increment alone; the read of the result is a statement of its own. */
    method AddQuota(id: Id, bytes: int, up: bool) returns (ok: bool)
      modifies `subs
      ensures ok == up && View() == if ok then old(View()).AddQuota(id, bytes) else old(View())
      ensures subs == if !ok || id !in old(subs) then old(subs) else
        var r := old(subs)[id]; old(subs)[id := r.(quota := if r.quota + bytes < 0 then 0 else r.quota + bytes)]
    {
      ok := up;
      if ok && id in subs { subs := subs[id := subs[id].(quota := Max(0, subs[id].quota + bytes))]; }
    }

    method ReadQuota(id: Id, up: bool) returns (quota: Option<int>)
      ensures quota == if up && id in subs then Some(subs[id].quota) else None
    {
      if up && id in subs { quota := Some(subs[id].quota); } else { quota := None; }
    }

    method UpdateSubscriptionUsage(id: Id, used: int, up: bool)
      modifies `subs
      ensures View() == if up then old(View()).SetUsed(id, used) else old(View())
      ensures subs == if up && id in old(subs) then old(subs)[id := old(subs)[id].(used := used)] else old(subs)
    {
      if up && id in subs { subs := subs[id := subs[id].(used := used)]; }
    }

    method UpdateSubscriptionStatus(id: Id, status: string, up: bool) returns (ok: bool)
      modifies `subs
      ensures ok == up && View() == if ok then old(View()).SetStatus(id, status) else old(View())
      ensures subs == if ok && id in old(subs) then old(subs)[id := old(subs)[id].(status := status)] else old(subs)
    {
      ok := up;
      if ok && id in subs { subs := subs[id := subs[id].(status := status)]; }
    }

    method UpdateSubscriptionNotified(id: Id, level: int, up: bool)
      modifies `subs
      ensures View() == if up then old(View()).SetNotified(id, level) else old(View())
      ensures subs == if up && id in old(subs) then old(subs)[id := old(subs)[id].(notified := level)] else old(subs)
    {
      if up && id in subs { subs := subs[id := subs[id].(notified := level)]; }
    }

    method RecordUsage(sample: Sample, up: bool)
      modifies `samples
      ensures samples == if up then old(samples) + [sample] else old(samples)
    {
      if up { samples := samples + [sample]; }
    }

    /** Refused with ErrNotFound when no row is affected. */
    method RenewSubscription(id: Id, endAt: int, up: bool) returns (ok: bool)
      modifies `subs
      ensures ok <==> up && id in old(subs)
      ensures View() == if ok then old(View()).Renew(id, endAt) else old(View())
      ensures subs == if !ok then old(subs) else var r := old(subs)[id]; old(subs)[
        id := r.(used := 0, period := r.period + 1, notified := 0, status := "active", endAt := endAt)]
    {
      ok := up && id in subs;
      if ok {
        var r := subs[id];
        subs := subs[id := r.(used := 0, period := r.period + 1, notified := 0, status := "active", endAt := endAt)];
      }
    }

    method DeleteSubscription(id: Id, up: bool) returns (ok: bool)
      modifies `subs
      ensures ok <==> up && id in old(subs)
      ensures View() == if ok then old(View()).Remove(id) else old(View())
      ensures subs == if ok then old(subs) - {id} else old(subs)
    {
      ok := up && id in subs;
      if ok { subs := subs - {id}; }
    }

    method SetCustomerStatus(id: Id, status: string, up: bool) returns (ok: bool)
      modifies `customers
      ensures ok <==> up && id in old(customers)
      ensures View() == if ok then old(View()).SetCustomerStatus(id, status) else old(View())
      ensures customers == if ok then old(customers)[id := status] else old(customers)
    {
      ok := up && id in customers;
      if ok { customers := customers[id := status]; }
    }

    method DeleteCustomer(id: Id, up: bool) returns (ok: bool)
      modifies `customers, `subs, `keys
      ensures ok <==> up && id in old(customers)
      ensures View() == if ok then old(View()).RemoveCustomer(id) else old(View())
      ensures customers == if ok then old(customers) - {id} else old(customers)
      ensures forall s :: s in subs <==> s in old(subs) && !(ok && old(subs)[s].customer == id)
      ensures forall k :: k in keys <==> k in old(keys) && !(ok && old(keys)[k] == id)
      ensures (forall s | s in subs :: subs[s] == old(subs)[s]) && (forall k | k in keys :: keys[k] == old(keys)[k])
    {
      ok := up && id in customers;
      if ok {
        customers := customers - {id};
        subs := map s | s in subs && subs[s].customer != id :: subs[s];
        keys := map k | k in keys && keys[k] != id :: keys[k];
      }
    }

    method CountSubscriptionsByNode(id: Id, up: bool) returns (count: Option<nat>)
      ensures count.Some? == up
      ensures up ==> (count.value == 0 <==> !View().NodeInUse(id))
      ensures up ==> (count.value == 0 <==> forall s | s in subs :: subs[s].node != id)
    {
      if !up { return None; }
      var theirs := map s | s in subs && subs[s].node == id :: subs[s];
      assert theirs == map[] <==> !View().NodeInUse(id) by {
        assert forall s | s in subs && subs[s].node == id :: s in theirs;
      }
      count := Some(|theirs|);
    }

    /** The foreign keys refuse to orphan a subscription. */
    method DeletePlan(id: Id, up: bool) returns (ok: bool)
      modifies `plans
      ensures ok <==> up && id in old(plans) && !old(View()).PlanInUse(id)
      ensures View() == if up then old(View()).RemovePlan(id) else old(View())
      ensures ok <==> up && id in old(plans) && forall s | s in subs :: subs[s].plan != id
      ensures plans == if ok then old(plans) - {id} else old(plans)
    {
      ok := up && id in plans && !View().PlanInUse(id);
      if ok { plans := plans - {id}; }
    }

    method DeleteNode(id: Id, up: bool) returns (ok: bool)
      modifies `nodes
      ensures ok <==> up && id in old(nodes) && !old(View()).NodeInUse(id)
      ensures View() == if up then old(View()).RemoveNode(id) else old(View())
      ensures ok <==> up && id in old(nodes) && forall s | s in subs :: subs[s].node != id
      ensures nodes == if ok then old(nodes) - {id} else old(nodes)
    {
      ok := up && id in nodes && !View().NodeInUse(id);
      if ok { nodes := nodes - {id}; }
    }
  }

  /** All node agents; a call reaches the tenant that its address names. */
  class Agents {
    var tenants: map<Addr, Tenant>

    constructor ()
      ensures tenants == map[]
    {
      tenants := map[];
    }

    method CreateTenant(at: Addr, quota: int, credit: int, expire: int, reply: Reply) returns (ok: bool)
      modifies this
      ensures ok == (reply == Done)
      ensures tenants == if reply == Refused then old(tenants)
              else old(tenants)[at := Tenant(quota, credit, expire, 0, 0, "active")]
    {
      ok := reply == Done;
      if reply != Refused { tenants := tenants[at := Tenant(quota, credit, expire, 0, 0, "active")]; }
    }

    method SetQuota(at: Addr, quota: int, credit: int, expire: int, reply: Reply) returns (ok: bool)
      modifies this
      ensures ok == (at in old(tenants) && reply == Done)
      ensures tenants == if at in old(tenants) && reply != Refused
                         then old(tenants)[at := old(tenants)[at].(quota := quota, credit := credit, expire := expire)]
                         else old(tenants)
    {
      ok := at in tenants && reply == Done;
      if at in tenants && reply != Refused {
        tenants := tenants[at := tenants[at].(quota := quota, credit := credit, expire := expire)];
      }
    }

    /** Suspends or resumes. */
    method Switch(at: Addr, status: string, reply: Reply) returns (ok: bool)
      modifies this
      ensures ok == (at in old(tenants) && reply == Done)
      ensures tenants == if at in old(tenants) && reply != Refused
                         then old(tenants)[at := old(tenants)[at].(status := status)] else old(tenants)
    {
      ok := at in tenants && reply == Done;
      if at in tenants && reply != Refused { tenants := tenants[at := tenants[at].(status := status)]; }
    }

    method ResetPeriod(at: Addr, reply: Reply) returns (ok: bool)
      modifies this
      ensures ok == (at in old(tenants) && reply == Done)
      ensures tenants == if at in old(tenants) && reply != Refused
                         then var t := old(tenants)[at];
                              old(tenants)[at := t.(resets := t.resets + 1, used := 0, status := "active")]
                         else old(tenants)
    {
      ok := at in tenants && reply == Done;
      if at in tenants && reply != Refused {
        var t := tenants[at];
        tenants := tenants[at := t.(resets := t.resets + 1, used := 0, status := "active")];
      }
    }

    /** Deleting a tenant that is already gone succeeds. */
    method Delete(at: Addr, reply: Reply) returns (ok: bool)
      modifies this
      ensures ok == (reply == Done)
      ensures tenants == if reply == Refused then old(tenants) else old(tenants) - {at}
    {
      ok := reply == Done;
      if reply != Refused { tenants := tenants - {at}; }
    }
  }
}
