/** The panel's records and the tenants that live on remote nodes. */
module Domain {

  datatype Option<+T> = None | Some(value: T)

  /** Identifiers are drawn from one counter, which stands for fresh UUIDs; 0 is the empty string. */
  type Id = nat

  /** A sellable package: bytes and days. */
  datatype Plan = Plan(quota: int, days: int)

  /** Where a tenant lives: the node, and the tenant's id on that node. */
  datatype Addr = Addr(node: Id, tenant: Id)

  /** A row of the subscriptions table. */
  datatype Row = Row(
    customer: Id, plan: Id, node: Id, tenant: Id, status: string, period: nat,
    startAt: int, endAt: int, quota: int, used: int, credit: int, notified: int)
  {
    function At(): Addr { Addr(node, tenant) }
  }

  /** A tenant as its node keeps it; `resets` counts the periods started after the first. */
  datatype Tenant = Tenant(quota: int, credit: int, expire: int, resets: nat, used: int, status: string)

  /** What a node reports when it is polled. */
  datatype Usage = Usage(used: int, status: string, period: nat)

  /** A usage sample as the panel keeps it. */
  datatype Sample = Sample(tenant: Id, node: Id, period: nat, ts: int, used: int)

  ghost predicate Distinct(order: seq<Id>) { forall i, j | 0 <= i < j < |order| :: order[i] != order[j] }

  /** The rows of a query in some order, each once. */
  ghost predicate Lists<T>(order: seq<Id>, rows: map<Id, T>) {
    (forall id :: id in order <==> id in rows) && Distinct(order)
  }

  function Max(a: int, b: int): (m: int)
    ensures a <= m && b <= m && (m == a || m == b)
  {
    if a < b then b else a
  }
}
