/**
 * The panel and its nodes as one state machine. Every handler is a thread that executes one
 * store statement or one node call per step, so its steps interleave freely with those of all
 * other handlers, with the usage collector's writes and with the nodes' own enforcement.
 */
module Protocol {
  import opened Domain
  import opened Database
  import Threshold

  // ---------- what the bookkeeping remembers; no step looks at it ----------

  /** One executed quota increment, and whether its handler took it back. */
  datatype Purchase = Purchase(sid: Id, bytes: int, undone: bool)

  /** Notable moments, in the order in which they happened. */
  datatype Mark =
    | Rearmed(sid: Id, level: int)                              // notified_threshold reset by a handler
    | Seen(sid: Id, level: int)                                 // level computed from a polled usage
    | UsageSent(sid: Id, level: int)                            // usage.threshold or usage.over_quota
    | StatusSent(sid: Id, status: string, byCollector: bool)    // subscription.*
    | Activated(sid: Id)                                        // a handler wrote status 'active'

  datatype Book = Book(
    owner: map<Addr, Id>,           // the subscription that was stored for a tenant
    held: map<Addr, set<int>>,      // creation quota, and every quota its row has held
    base: map<Id, int>,             // creation quota by subscription
    log: seq<Purchase>,
    spent: map<Id, nat>,            // renewals that ended after their reset took effect
    guessed: set<Id>,               // subscriptions whose end_at was granted without their plan
    abandoned: set<Addr>,           // rollback deletes that reported an error
    kept: set<Id>,                  // subscriptions whose row a rollback failed to remove
    lost: set<Addr>,                // creates that took effect but reported an error
    swept: set<Addr>,               // live tenants whose row a customer cascade removed
    trail: seq<Mark>)

  function Count(m: map<Id, nat>, sid: Id): nat { if sid in m then m[sid] else 0 }

  datatype World = World(db: DB, fleet: map<Addr, Tenant>, next: Id, clock: int, book: Book)

  // ---------- the environment's choices ----------

  /** A node call is carried out, refused, or carried out while the caller sees an error. */
  datatype Reply = Done | Refused | Lost

  /** What befalls one step: the database's verdict, the node's reply, the loop's next row, the time. */
  datatype Fate = Fate(db: bool, reply: Reply, pick: Id, elapsed: nat)

  const FINE := Fate(true, Done, 0, 0)

  /** The call changes the tenant. */
  predicate Lands(w: World, at: Addr, f: Fate) { at in w.fleet && f.reply != Refused }

  /** The caller learns that it did. */
  predicate Acked(w: World, at: Addr, f: Fate) { at in w.fleet && f.reply == Done }

  // ---------- program counters ----------

  /** What loadSubAndNode loads a subscription for. */
  datatype Task = AddBytes(bytes: int) | NewPeriod | Switch(target: string)

  datatype Creating =
    | ReadCustomer(customer: Id, planId: Id, node: Id, credit: int)
    | ReadPlan(customer: Id, planId: Id, node: Id, credit: int)
    | ReadNode(customer: Id, planId: Id, plan: Plan, node: Id, credit: int)
    | CallCreate(draft: Row)
    | Insert(row: Row, key: Id)
    | InsertKey(sid: Id, row: Row, key: Id)
    | Undo(row: Row, stored: Option<Id>)
    | Unstore(sid: Id)

  datatype Deleting =
    | ReadSub(sid: Id)
    | ReadItsNode(sid: Id, row: Row)
    | CallDelete(sid: Id, row: Row)
    | DeleteRow(sid: Id, row: Row)

  /** deleteCustomer and toggleCustomer go through a listing in any order; `done` is how far they got. */
  datatype Purging =
    | ListAll
    | Each(listed: map<Id, Row>, done: set<Id>)
    | Evict(listed: map<Id, Row>, done: set<Id>, sid: Id)

  datatype Toggling =
    | ListThem
    | Every(listed: map<Id, Row>, done: set<Id>)
    | CallNode(listed: map<Id, Row>, done: set<Id>, sid: Id)
    | WriteRow(listed: map<Id, Row>, done: set<Id>, sid: Id)
    | Confirm

  datatype TopupPhase =
    | Add(bytes: int)
    | ReadBack(bytes: int, ticket: nat)
    | CallSet(bytes: int, ticket: nat, quota: int)
    | TakeBack(bytes: int, ticket: nat, landed: bool)   // `landed`: the node took the quota; no step looks at it
    | CallResume(quota: int)
    | WriteStatus(quota: int)
    | WriteNotified(quota: int)

  datatype RenewPhase =
    | ReadItsPlan
    | CallReset(endAt: int, guessed: bool)      // `guessed`: the plan could not be read; no call looks at it
    | CallRenewed(endAt: int, guessed: bool)
    | WriteRenewed(endAt: int, guessed: bool)

  datatype Pc =
    | Create(creating: Creating)
    | Delete(deleting: Deleting)
    | Purge(customer: Id, purging: Purging)
    | Toggle(customer: Id, enable: bool, toggling: Toggling)
    | LoadSub(sid: Id, task: Task)
    | LoadNode(sid: Id, row: Row, task: Task)
    | Lifecycle(sid: Id, row: Row, target: string, acked: bool)
    | Topup(sid: Id, row: Row, topup: TopupPhase)
    | Renew(sid: Id, row: Row, renew: RenewPhase)
    | DropPlan(planId: Id)
    | DropNodeCount(node: Id)
    | DropNode(node: Id)

  /** The state after a step, and where the thread goes on, if it does. */
  datatype Outcome = Outcome(world: World, pc: Option<Pc>)

  // ---------- node calls ----------

  function Configure(w: World, at: Addr, quota: int, credit: int, expire: int, f: Fate): World {
    if Lands(w, at, f) then w.(fleet := w.fleet[at := w.fleet[at].(quota := quota, credit := credit, expire := expire)])
    else w
  }

  function ResetTenant(w: World, at: Addr): World
    requires at in w.fleet
  {
    var t := w.fleet[at];
    w.(fleet := w.fleet[at := t.(resets := t.resets + 1, used := 0, status := "active")])
  }

  function SwitchTenant(w: World, at: Addr, status: string, f: Fate): World {
    if Lands(w, at, f) then w.(fleet := w.fleet[at := w.fleet[at].(status := status)]) else w
  }

  function Deprovision(w: World, at: Addr, f: Fate): World {
    if f.reply == Refused then w else w.(fleet := w.fleet - {at})
  }

  // ---------- bookkeeping ----------

  function Noting(w: World, marks: seq<Mark>): World {
    w.(book := w.book.(trail := w.book.trail + marks))
  }

  /** Remembers the quota the row now has. */
  function Holding(w: World, sid: Id): World {
    if sid in w.db.subs && w.db.subs[sid].At() in w.book.held then
      var row := w.db.subs[sid];
      w.(book := w.book.(held := w.book.held[row.At() := w.book.held[row.At()] + {row.quota}]))
    else w
  }

  function Spending(w: World, sid: Id): World {
    w.(book := w.book.(spent := w.book.spent[sid := Count(w.book.spent, sid) + 1]))
  }

  // ---------- createSubscription ----------

  function CreateStep(w: World, c: Creating, f: Fate): Outcome {
    match c
    case ReadCustomer(customer, p, n, credit) =>
      Outcome(w, if f.db && customer in w.db.customers then Some(Create(ReadPlan(customer, p, n, credit))) else None)
    case ReadPlan(customer, p, n, credit) =>
      Outcome(w, if f.db && p in w.db.plans
                 then Some(Create(ReadNode(customer, p, w.db.plans[p], n, credit))) else None)
    case ReadNode(customer, p, plan, n, credit) =>
      if f.db && n in w.db.nodes then
        var now := w.clock + f.elapsed;
        var draft := Row(customer, p, n, 0, "active", 1, now, now + plan.days * 86400, plan.quota, 0, credit, 0);
        Outcome(w.(clock := now), Some(Create(CallCreate(draft))))
      else Outcome(w, None)
    case CallCreate(draft) => Provision(w, draft, f)
    case Insert(row, key) =>
      if f.db && w.db.CanInsert(row) then Outcome(Stored(w, row), Some(Create(InsertKey(w.next, row, key))))
      else Outcome(w, Some(Create(Undo(row, None))))
    case InsertKey(sid, row, key) =>
      if f.db && row.customer in w.db.customers then Outcome(w.(db := w.db.InsertKey(key, row.customer)), None)
      else Outcome(w, Some(Create(Undo(row, Some(sid)))))
    case Undo(row, stored) =>
      var w1 := Deprovision(w, row.At(), f);
      Outcome(if f.reply == Done then w1 else Abandon(w1, row.At()),
              if stored.Some? then Some(Create(Unstore(stored.value))) else None)
    case Unstore(sid) =>
      Outcome(if f.db then w.(db := w.db.Remove(sid)) else w.(book := w.book.(kept := w.book.kept + {sid})), None)
  }

  /** Draws the tenant id and the customer's key, and asks the node to create the tenant. */
  function Provision(w: World, draft: Row, f: Fate): Outcome {
    var row := draft.(tenant := w.next);
    var minted := w.(next := w.next + 2);
    if f.reply == Refused then Outcome(minted, None)
    else
      var born := minted.(
        fleet := w.fleet[row.At() := Tenant(row.quota, row.credit, row.endAt, 0, 0, "active")],
        book := w.book.(held := w.book.held[row.At() := {row.quota}]));
      if f.reply == Done then Outcome(born, Some(Create(Insert(row, w.next + 1))))
      else Outcome(born.(book := born.book.(lost := born.book.lost + {row.At()})), None)
  }

  function Stored(w: World, row: Row): World {
    var sid := w.next;
    Noting(w.(db := w.db.Insert(sid, row), next := sid + 1,
              book := w.book.(owner := w.book.owner[row.At() := sid], base := w.book.base[sid := row.quota])),
           [Rearmed(sid, 0), Activated(sid)])
  }

  function Abandon(w: World, at: Addr): World {
    w.(book := w.book.(abandoned := w.book.abandoned + {at}))
  }

  // ---------- deleteSubscription ----------

  function DeleteStep(w: World, d: Deleting, f: Fate): Outcome {
    match d
    case ReadSub(sid) =>
      if f.db && sid in w.db.subs then
        var row := w.db.subs[sid];
        Outcome(w, Some(Delete(if row.tenant != 0 then ReadItsNode(sid, row) else DeleteRow(sid, row))))
      else Outcome(w, None)
    case ReadItsNode(sid, row) =>
      Outcome(w, if f.db && row.node in w.db.nodes then Some(Delete(CallDelete(sid, row))) else None)
    case CallDelete(sid, row) =>
      Outcome(Deprovision(w, row.At(), f), if f.reply == Done then Some(Delete(DeleteRow(sid, row))) else None)
    case DeleteRow(sid, row) =>
      Outcome(if f.db then w.(db := w.db.Remove(sid)) else w, None)
  }

  // ---------- deleteCustomer ----------

  /** The live tenants whose rows a cascade from the customer removes. */
  function Stranded(w: World, customer: Id): set<Addr> {
    set s | s in w.db.subs && w.db.subs[s].customer == customer && w.db.subs[s].At() in w.fleet :: w.db.subs[s].At()
  }

  function Cascade(w: World, customer: Id): World {
    w.(db := w.db.RemoveCustomer(customer),
       book := w.book.(swept := w.book.swept + Stranded(w, customer)))
  }

  function PurgeStep(w: World, customer: Id, p: Purging, f: Fate): Outcome {
    match p
    case ListAll =>
      Outcome(w, if f.db then Some(Purge(customer, Each(w.db.OfCustomer(customer), {}))) else None)
    case Each(listed, done) =>
      if listed.Keys <= done then
        Outcome(if f.db && customer in w.db.customers then Cascade(w, customer) else w, None)
      else if f.pick !in listed || f.pick in done then Outcome(w, Some(Purge(customer, p)))
      else if listed[f.pick].tenant == 0 then Outcome(w, Some(Purge(customer, Each(listed, done + {f.pick}))))
      else Outcome(w, if f.db && listed[f.pick].node in w.db.nodes
                      then Some(Purge(customer, Evict(listed, done, f.pick))) else None)
    case Evict(listed, done, sid) =>
      if sid in listed then
        Outcome(Deprovision(w, listed[sid].At(), f),
                if f.reply == Done then Some(Purge(customer, Each(listed, done + {sid}))) else None)
      else Outcome(w, None)
  }

  // ---------- toggleCustomer ----------

  function ToggleStep(w: World, customer: Id, enable: bool, t: Toggling, f: Fate): Outcome {
    var status := if enable then "active" else "suspended";
    match t
    case ListThem =>
      // A failed listing is ignored: the loop then runs over nothing.
      Outcome(w, Some(Toggle(customer, enable, Every(if f.db then w.db.OfCustomer(customer) else map[], {}))))
    case Every(listed, done) =>
      if listed.Keys <= done then
        if f.db && customer in w.db.customers then
          Outcome(w.(db := w.db.SetCustomerStatus(customer, if enable then "active" else "disabled")),
                  Some(Toggle(customer, enable, Confirm)))
        else Outcome(w, None)
      else if f.pick !in listed || f.pick in done then Outcome(w, Some(Toggle(customer, enable, t)))
      else if f.db && listed[f.pick].node in w.db.nodes && listed[f.pick].tenant != 0 then
        Outcome(w, Some(Toggle(customer, enable, CallNode(listed, done, f.pick))))
      else Outcome(w, Some(Toggle(customer, enable, Every(listed, done + {f.pick}))))
    case CallNode(listed, done, sid) =>
      if sid in listed then
        Outcome(SwitchTenant(w, listed[sid].At(), status, f),
                Some(Toggle(customer, enable, WriteRow(listed, done, sid))))
      else Outcome(w, None)
    case WriteRow(listed, done, sid) =>
      Outcome(if f.db then SwitchRow(w, sid, status) else w,
              Some(Toggle(customer, enable, Every(listed, done + {sid}))))
    case Confirm =>
      // The customer is read again for the response.
      Outcome(w, None)
  }

  function SwitchRow(w: World, sid: Id, status: string): World {
    Noting(w.(db := w.db.SetStatus(sid, status)), if status == "active" then [Activated(sid)] else [])
  }

  // ---------- loadSubAndNode, suspend and resume ----------

  function Begin(sid: Id, row: Row, task: Task): Pc {
    match task
    case AddBytes(bytes) => Topup(sid, row, Add(bytes))
    case NewPeriod => Renew(sid, row, ReadItsPlan)
    case Switch(target) => Lifecycle(sid, row, target, false)
  }

  function LifecycleStep(w: World, sid: Id, row: Row, target: string, acked: bool, f: Fate): Outcome {
    if !acked then
      Outcome(SwitchTenant(w, row.At(), target, f),
              if Acked(w, row.At(), f) then Some(Lifecycle(sid, row, target, true)) else None)
    else
      Outcome(if f.db then Noting(SwitchRow(w, sid, target), [StatusSent(sid, target, false)]) else w, None)
  }

  // ---------- topupQuota ----------

  /** The increment and the read of the resulting quota are two statements. */
  function TopupStep(w: World, sid: Id, row: Row, t: TopupPhase, f: Fate): Outcome {
    match t
    case Add(bytes) =>
      if bytes <= 0 || !f.db then Outcome(w, None)
      else Outcome(Buy(w, sid, bytes), Some(Topup(sid, row, ReadBack(bytes, |w.book.log|))))
    case ReadBack(bytes, ticket) =>
      Outcome(w, if f.db && sid in w.db.subs
                 then Some(Topup(sid, row, CallSet(bytes, ticket, w.db.subs[sid].quota))) else None)
    case CallSet(bytes, ticket, quota) =>
      Outcome(Configure(w, row.At(), quota, row.credit, row.endAt, f),
              Some(Topup(sid, row, if Acked(w, row.At(), f) then CallResume(quota)
                                   else TakeBack(bytes, ticket, Lands(w, row.At(), f)))))
    case TakeBack(bytes, ticket, _) =>
      Outcome(if f.db && ticket < |w.book.log| then Unbuy(w, sid, bytes, ticket) else w, None)
    case CallResume(quota) =>
      Outcome(SwitchTenant(w, row.At(), "active", f), Some(Topup(sid, row, WriteStatus(quota))))
    case WriteStatus(quota) =>
      Outcome(if f.db then SwitchRow(w, sid, "active") else w, Some(Topup(sid, row, WriteNotified(quota))))
    case WriteNotified(quota) =>
      Outcome(if f.db then Rearm(w, sid, Threshold.Level(row.used, quota)) else w, None)
  }

  function Buy(w: World, sid: Id, bytes: int): World {
    Holding(w.(db := w.db.AddQuota(sid, bytes),
               book := w.book.(log := w.book.log + [Purchase(sid, bytes, false)])), sid)
  }

  function Unbuy(w: World, sid: Id, bytes: int, ticket: nat): World
    requires ticket < |w.book.log|
  {
    Holding(w.(db := w.db.AddQuota(sid, -bytes),
               book := w.book.(log := w.book.log[ticket := w.book.log[ticket].(undone := true)])), sid)
  }

  function Rearm(w: World, sid: Id, level: int): World {
    Noting(w.(db := w.db.SetNotified(sid, level)), [Rearmed(sid, level)])
  }

  // ---------- renewSubscription ----------

  function RenewStep(w: World, sid: Id, row: Row, r: RenewPhase, f: Fate): Outcome {
    match r
    case ReadItsPlan =>
      var days := if f.db && row.plan in w.db.plans && w.db.plans[row.plan].days > 0
                  then w.db.plans[row.plan].days else 30;
      var now := w.clock + f.elapsed;
      Outcome(w.(clock := now), Some(Renew(sid, row, CallReset(now + days * 86400, !f.db))))
    case CallReset(endAt, guessed) =>
      if !Lands(w, row.At(), f) then Outcome(w, None)
      else if f.reply == Lost then Outcome(Spending(ResetTenant(w, row.At()), sid), None)
      else Outcome(ResetTenant(w, row.At()), Some(Renew(sid, row, CallRenewed(endAt, guessed))))
    case CallRenewed(endAt, guessed) =>
      var w1 := Configure(w, row.At(), row.quota, row.credit, endAt, f);
      if Acked(w, row.At(), f) then Outcome(w1, Some(Renew(sid, row, WriteRenewed(endAt, guessed))))
      else Outcome(Spending(w1, sid), None)
    case WriteRenewed(endAt, guessed) =>
      Outcome(if f.db && sid in w.db.subs then Renewed(w, sid, endAt, guessed) else Spending(w, sid), None)
  }

  function Renewed(w: World, sid: Id, endAt: int, guessed: bool): World {
    var book := w.book.(guessed := if guessed then w.book.guessed + {sid} else w.book.guessed - {sid});
    Noting(w.(db := w.db.Renew(sid, endAt), book := book), [Rearmed(sid, 0), Activated(sid)])
  }

  // ---------- one step of any thread ----------

  function Next(w: World, pc: Pc, f: Fate): Outcome {
    match pc
    case Create(c) => CreateStep(w, c, f)
    case Delete(d) => DeleteStep(w, d, f)
    case Purge(c, p) => PurgeStep(w, c, p, f)
    case Toggle(c, enable, t) => ToggleStep(w, c, enable, t, f)
    case LoadSub(sid, task) =>
      Outcome(w, if f.db && sid in w.db.subs then Some(LoadNode(sid, w.db.subs[sid], task)) else None)
    case LoadNode(sid, row, task) =>
      Outcome(w, if f.db && row.node in w.db.nodes then Some(Begin(sid, row, task)) else None)
    case Lifecycle(sid, row, target, acked) => LifecycleStep(w, sid, row, target, acked, f)
    case Topup(sid, row, t) => TopupStep(w, sid, row, t, f)
    case Renew(sid, row, r) => RenewStep(w, sid, row, r, f)
    case DropPlan(p) => Outcome(if f.db then w.(db := w.db.RemovePlan(p)) else w, None)
    case DropNodeCount(n) => Outcome(w, if f.db && !w.db.NodeInUse(n) then Some(DropNode(n)) else None)
    case DropNode(n) => Outcome(if f.db then w.(db := w.db.RemoveNode(n)) else w, None)
  }

  // ---------- the collector's writes for one subscription ----------

  /** Which of its four statements the database carries out; failures are only logged. */
  datatype Writes = Writes(used: bool, sample: bool, notified: bool, status: bool)

  const ALL_WRITES := Writes(true, true, true, true)

  predicate Announced(status: string) { status == "suspended" || status == "active" || status == "expired" }

  /** The notices that one polled subscription gives rise to, computed from the listed snapshot. */
  function Notices(sid: Id, snap: Row, u: Usage): seq<Mark> {
    var level := Threshold.Level(u.used, snap.quota);
    [Seen(sid, level)]
    + (if level > snap.notified then [UsageSent(sid, level)] else [])
    + (if u.status != "" && u.status != snap.status && Announced(u.status)
       then [StatusSent(sid, u.status, true)] else [])
  }

  /** The row after the collector's updates, decided on the snapshot and applied to the current row. */
  function Folded(row: Row, snap: Row, u: Usage, wr: Writes): Row {
    var level := Threshold.Level(u.used, snap.quota);
    var r1 := if wr.used then row.(used := u.used) else row;
    var r2 := if wr.notified && level > snap.notified then r1.(notified := level) else r1;
    if wr.status && u.status != "" && u.status != snap.status then r2.(status := u.status) else r2
  }

  function ObserveRow(w: World, sid: Id, snap: Row, u: Usage, wr: Writes): World {
    Noting(if sid in w.db.subs then w.(db := w.db.Insert(sid, Folded(w.db.subs[sid], snap, u, wr))) else w,
           Notices(sid, snap, u))
  }

  // ---------- the whole system ----------

  datatype System = System(w: World, threads: map<Id, Pc>)

  datatype Event =
    | Arrive(tid: Id, request: Pc)
    | Move(tid: Id, fate: Fate)
    | Tick(seconds: nat)
    | Enforce(at: Addr, used: int, status: string)             // a node changes a tenant on its own
    | Observe(sid: Id, snap: Row, usage: Usage, writes: Writes)
    | AddCustomer
    | AddPlan(plan: Plan)
    | AddNode

  /** Where a request enters; a lifecycle request names one of the two statuses the routes allow. */
  predicate IsRequest(pc: Pc) {
    match pc
    case Create(c) => c.ReadCustomer?
    case Delete(d) => d.ReadSub?
    case Purge(_, p) => p.ListAll?
    case Toggle(_, _, t) => t.ListThem?
    case LoadSub(_, task) => task.Switch? ==> task.target == "suspended" || task.target == "active"
    case DropPlan(_) => true
    case DropNodeCount(_) => true
    case _ => false
  }

  function Apply(s: System, e: Event): System {
    var w := s.w;
    match e
    case Arrive(tid, request) =>
      if IsRequest(request) && tid !in s.threads then s.(threads := s.threads[tid := request]) else s
    case Move(tid, f) =>
      if tid in s.threads then
        var o := Next(w, s.threads[tid], f);
        System(o.world, if o.pc.Some? then s.threads[tid := o.pc.value] else s.threads - {tid})
      else s
    case Tick(n) => s.(w := w.(clock := w.clock + n))
    case Enforce(at, used, status) =>
      if at in w.fleet then s.(w := w.(fleet := w.fleet[at := w.fleet[at].(used := used, status := status)])) else s
    case Observe(sid, snap, u, wr) => s.(w := ObserveRow(w, sid, snap, u, wr))
    case AddCustomer =>
      s.(w := w.(db := w.db.(customers := w.db.customers[w.next := "active"]), next := w.next + 1))
    case AddPlan(plan) =>
      if plan.quota > 0 && plan.days > 0 then
        s.(w := w.(db := w.db.(plans := w.db.plans[w.next := plan]), next := w.next + 1))
      else s
    case AddNode => s.(w := w.(db := w.db.(nodes := w.db.nodes + {w.next}), next := w.next + 1))
  }

  /** A new installation. */
  function Fresh(clock: int): System {
    System(World(DB(map[], map[], {}, map[], map[]), map[], 1, clock,
                 Book(map[], map[], map[], [], map[], {}, {}, {}, {}, {}, [])),
           map[])
  }

  function Run(s: System, es: seq<Event>): System {
    if es == [] then s else Apply(Run(s, es[..|es| - 1]), es[|es| - 1])
  }

  lemma RunStep(s: System, es: seq<Event>, e: Event)
    ensures Run(s, es + [e]) == Apply(Run(s, es), e)
  {
    assert (es + [e])[..|es|] == es;
  }

  /** A handler alone: the steps it takes from one program counter under the given fates. */
  function Alone(w: World, pc: Pc, fs: seq<Fate>): Outcome {
    if fs == [] then Outcome(w, Some(pc))
    else
      var o := Alone(w, pc, fs[..|fs| - 1]);
      if o.pc.None? then o else Next(o.world, o.pc.value, fs[|fs| - 1])
  }
}
