/**
 * The rows of the panel's SQLite database as a value, and the statements that the store
 * executes on them. A statement that names a missing row changes nothing.
 */
module Database {
  import opened Domain

  datatype DB = DB(
    customers: map<Id, string>,   // status by customer
    plans: map<Id, Plan>,
    nodes: set<Id>,
    subs: map<Id, Row>,
    keys: map<Id, Id>)            // customer by key hash
  {
    /** The foreign keys of the subscriptions and api_keys tables. */
    ghost predicate ForeignKeys() {
      && (forall s | s in subs :: subs[s].customer in customers && subs[s].plan in plans && subs[s].node in nodes)
      && (forall k | k in keys :: keys[k] in customers)
    }

    predicate CanInsert(row: Row) {
      row.customer in customers && row.plan in plans && row.node in nodes
    }

    function Insert(sid: Id, row: Row): DB {
      this.(subs := subs[sid := row])
    }

    function InsertKey(key: Id, customer: Id): DB {
      this.(keys := keys[key := customer])
    }

    function AddQuota(sid: Id, bytes: int): DB {
      if sid in subs then Insert(sid, subs[sid].(quota := Max(0, subs[sid].quota + bytes))) else this
    }

    function SetUsed(sid: Id, used: int): DB {
      if sid in subs then Insert(sid, subs[sid].(used := used)) else this
    }

    function SetStatus(sid: Id, status: string): DB {
      if sid in subs then Insert(sid, subs[sid].(status := status)) else this
    }

    function SetNotified(sid: Id, level: int): DB {
      if sid in subs then Insert(sid, subs[sid].(notified := level)) else this
    }

    function Renew(sid: Id, endAt: int): DB {
      if sid in subs then
        var r := subs[sid];
        Insert(sid, r.(used := 0, period := r.period + 1, notified := 0, status := "active", endAt := endAt))
      else this
    }

    function SetCustomerStatus(customer: Id, status: string): DB {
      if customer in customers then this.(customers := customers[customer := status]) else this
    }

    function Remove(sid: Id): DB {
      this.(subs := subs - {sid})
    }

    /** The customer's subscriptions and keys go with it. */
    function RemoveCustomer(customer: Id): DB {
      this.(customers := customers - {customer},
            subs := map s | s in subs && subs[s].customer != customer :: subs[s],
            keys := map k | k in keys && keys[k] != customer :: keys[k])
    }

    predicate PlanInUse(plan: Id) { exists s | s in subs :: subs[s].plan == plan }

    predicate NodeInUse(node: Id) { exists s | s in subs :: subs[s].node == node }

    /** Refused by the foreign key while a subscription refers to the plan. */
    function RemovePlan(plan: Id): DB {
      if PlanInUse(plan) then this else this.(plans := plans - {plan})
    }

    function RemoveNode(node: Id): DB {
      if NodeInUse(node) then this else this.(nodes := nodes - {node})
    }

    function OfCustomer(customer: Id): map<Id, Row> {
      map s | s in subs && subs[s].customer == customer :: subs[s]
    }

    function Active(): map<Id, Row> {
      map s | s in subs && subs[s].tenant != 0 && subs[s].status == "active" :: subs[s]
    }
  }
}
