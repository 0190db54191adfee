/**
 * What holds between any two steps, whatever interleaves: foreign keys, identifiers that are
 * never reused, and snapshots that stay truthful about a row's fixed columns.
 */
module Structure {
  import opened Domain
  import opened Database
  import opened Protocol

  // ---------- what no step ever undoes ----------

  /** The columns that no statement updates. */
  predicate SameColumns(a: Row, b: Row) {
    a.customer == b.customer && a.plan == b.plan && a.node == b.node && a.tenant == b.tenant && a.credit == b.credit
  }

  /** A removed row stays removed, a deleted tenant stays deleted, a recorded fact stays recorded. */
  ghost predicate Evolves(w: World, w': World) {
    && w.next <= w'.next && w.clock <= w'.clock
    && (forall s | s in w'.db.subs && s < w.next :: s in w.db.subs && SameColumns(w'.db.subs[s], w.db.subs[s]))
    && (forall p | p in w'.db.plans && p < w.next :: p in w.db.plans && w'.db.plans[p] == w.db.plans[p])
    && (forall a | a in w'.fleet && a.tenant < w.next :: a in w.fleet)
    && (forall a | a in w.book.owner :: a in w'.book.owner && w'.book.owner[a] == w.book.owner[a])
    && (forall a | a in w.book.held :: a in w'.book.held && w.book.held[a] <= w'.book.held[a])
    && (forall s | s in w.book.base :: s in w'.book.base && w'.book.base[s] == w.book.base[s])
    && w.book.abandoned <= w'.book.abandoned && w.book.lost <= w'.book.lost && w.book.swept <= w'.book.swept
  }

  lemma EvolvesTrans(w0: World, w1: World, w2: World)
    requires Evolves(w0, w1) && Evolves(w1, w2)
    ensures Evolves(w0, w2)
  {}

  // ---------- the invariant of the shared state ----------

  ghost predicate SoundRow(w: World, s: Id, row: Row) {
    && 0 < s < w.next && 0 < row.tenant < w.next && row.quota >= 0
    && row.At() in w.book.owner && w.book.owner[row.At()] == s && row.At() in w.book.held
    && s in w.book.base
  }

  ghost predicate SoundWorld(w: World) {
    && w.next > 0
    && w.db.ForeignKeys()
    && (forall s | s in w.db.subs :: SoundRow(w, s, w.db.subs[s]))
    && (forall p | p in w.db.plans :: p < w.next && w.db.plans[p].quota > 0 && w.db.plans[p].days > 0)
    && (forall a | a in w.fleet :: 0 < a.tenant < w.next && w.fleet[a].quota >= 0 && a in w.book.held)
    && (forall a | a in w.book.owner :: 0 < a.tenant < w.next && w.book.owner[a] < w.next && a in w.book.held
                                        && w.book.owner[a] in w.book.base)
    && (forall a | a in w.book.held :: a.tenant < w.next)
    && (forall s | s in w.book.base :: s < w.next)
  }

  // ---------- the invariant of one thread ----------

  /** A snapshot of a stored row: if the row is still there, its fixed columns are these. */
  ghost predicate Snapshot(w: World, sid: Id, row: Row) {
    && SoundRow(w, sid, row)
    && (sid in w.db.subs ==> SameColumns(w.db.subs[sid], row))
  }

  ghost predicate Snapshots(w: World, listed: map<Id, Row>) {
    forall s | s in listed :: Snapshot(w, s, listed[s])
  }

  /** A tenant that was provisioned for a row that is not stored yet. */
  ghost predicate Private(w: World, row: Row) {
    && 0 < row.tenant < w.next && row.quota >= 0
    && row.At() !in w.book.owner && row.At() in w.book.held
  }

  /** The plan that a create has read. */
  ghost predicate PlanRead(w: World, p: Id, plan: Plan) {
    p < w.next && plan.quota > 0 && plan.days > 0 && (p in w.db.plans ==> w.db.plans[p] == plan)
  }

  ghost predicate SoundCreating(w: World, c: Creating) {
    match c
    case ReadCustomer(_, _, _, _) => true
    case ReadPlan(_, _, _, _) => true
    case ReadNode(_, p, plan, _, _) => PlanRead(w, p, plan)
    case CallCreate(draft) => draft.quota > 0 && draft.plan < w.next
    case Insert(row, _) => Private(w, row)
    case InsertKey(sid, row, _) => Snapshot(w, sid, row)
    case Undo(row, stored) => if stored.Some? then Snapshot(w, stored.value, row) else Private(w, row)
    case Unstore(_) => true
  }

  ghost predicate SoundThread(w: World, pc: Pc) {
    match pc
    case Create(c) => SoundCreating(w, c)
    case Delete(d) => d.ReadSub? || Snapshot(w, d.sid, d.row)
    case Purge(_, p) => p.ListAll? || (Snapshots(w, p.listed) && (p.Evict? ==> p.sid in p.listed))
    case LoadNode(sid, row, _) => Snapshot(w, sid, row)
    case Lifecycle(sid, row, _, _) => Snapshot(w, sid, row)
    case Topup(sid, row, t) => Snapshot(w, sid, row) && (t.CallSet? ==> t.quota >= 0)
                               && (t.ReadBack? || t.CallSet? || t.TakeBack? ==> t.bytes > 0)
    case Renew(sid, row, r) => Snapshot(w, sid, row)
    case _ => true
  }

  /** The tenant that only this thread knows of. */
  function Secret(pc: Pc): Option<Addr> {
    match pc
    case Create(Insert(row, _)) => Some(row.At())
    case Create(Undo(row, None)) => Some(row.At())
    case _ => None
  }

  ghost predicate Sound(s: System) {
    && SoundWorld(s.w)
    && (forall t | t in s.threads :: SoundThread(s.w, s.threads[t]))
    && (forall t, u | t in s.threads && u in s.threads && t != u ::
          Secret(s.threads[t]).None? || Secret(s.threads[t]) != Secret(s.threads[u]))
  }

  // ---------- what each kind of statement and node call keeps ----------

  ghost predicate Keeps(w: World, w': World) { SoundWorld(w') && Evolves(w, w') }

  ghost predicate BookKept(b: Book, b': Book) {
    && b'.owner == b.owner && b'.base == b.base
    && b.abandoned <= b'.abandoned && b.lost <= b'.lost && b.swept <= b'.swept
    && b'.held.Keys == b.held.Keys && (forall a | a in b.held :: b.held[a] <= b'.held[a])
  }

  /** Nothing but the clock and the books. */
  lemma BookKeeps(w: World, w': World)
    requires SoundWorld(w) && w'.db == w.db && w'.fleet == w.fleet && w'.next == w.next && w.clock <= w'.clock
    requires BookKept(w.book, w'.book)
    ensures Keeps(w, w')
  {}

  /** An UPDATE of one subscription. */
  lemma UpdateKeeps(w: World, w': World, sid: Id, row: Row)
    requires SoundWorld(w) && w'.fleet == w.fleet && w'.next == w.next && w.clock <= w'.clock
    requires sid in w.db.subs && SameColumns(row, w.db.subs[sid]) && w'.db == w.db.Insert(sid, row)
    requires row.quota >= 0 || row.quota == w.db.subs[sid].quota
    requires BookKept(w.book, w'.book)
    ensures Keeps(w, w')
  {
    hide Evolves;
    UpdateEvolves(w, w', sid, row);
    forall s | s in w'.db.subs ensures SoundRow(w', s, w'.db.subs[s]) { UpdatedRowIsSound(w, w', sid, row, s); }
    hide SoundRow;
    assert w'.db.ForeignKeys();
  }

  lemma UpdatedRowIsSound(w: World, w': World, sid: Id, row: Row, s: Id)
    requires SoundWorld(w) && w'.next == w.next && BookKept(w.book, w'.book)
    requires sid in w.db.subs && SameColumns(row, w.db.subs[sid]) && w'.db == w.db.Insert(sid, row)
    requires row.quota >= 0 || row.quota == w.db.subs[sid].quota
    requires s in w'.db.subs
    ensures SoundRow(w', s, w'.db.subs[s])
  {
    assert SoundRow(w, s, w.db.subs[s]);
    hide SoundWorld;
  }

  lemma UpdateEvolves(w: World, w': World, sid: Id, row: Row)
    requires w'.next == w.next && w.clock <= w'.clock && w'.fleet == w.fleet
    requires sid in w.db.subs && SameColumns(row, w.db.subs[sid]) && w'.db == w.db.Insert(sid, row)
    requires BookKept(w.book, w'.book)
    ensures Evolves(w, w')
  {}

  /** A DELETE of subscriptions, with or without their customer. */
  lemma RemoveKeeps(w: World, sid: Id)
    requires SoundWorld(w)
    ensures Keeps(w, w.(db := w.db.Remove(sid)))
  {}

  lemma CascadeKeeps(w: World, customer: Id)
    requires SoundWorld(w)
    ensures Keeps(w, Cascade(w, customer))
  {}

  /** A call that changes one live tenant. */
  lemma CallKeeps(w: World, at: Addr, t: Tenant)
    requires SoundWorld(w) && at in w.fleet && t.quota >= 0
    ensures Keeps(w, w.(fleet := w.fleet[at := t]))
  {}

  lemma DeprovisionKeeps(w: World, at: Addr, f: Fate)
    requires SoundWorld(w)
    ensures Keeps(w, Deprovision(w, at, f))
  {}

  lemma StoredIsSound(w: World, row: Row)
    requires SoundWorld(w) && Private(w, row) && w.db.CanInsert(row)
    ensures SoundWorld(Stored(w, row)) && Snapshot(Stored(w, row), w.next, row)
  {}

  lemma StoredKeeps(w: World, row: Row)
    requires SoundWorld(w) && Private(w, row) && w.db.CanInsert(row)
    ensures Keeps(w, Stored(w, row)) && Snapshot(Stored(w, row), w.next, row)
  {
    StoredIsSound(w, row);
    hide SoundRow, Snapshot;
    assert forall s | s in w.book.base :: s < w.next;
  }

  lemma ProvisionKeeps(w: World, draft: Row, f: Fate)
    requires SoundWorld(w) && draft.quota > 0
    ensures var o := Provision(w, draft, f); Keeps(w, o.world) && (o.pc.Some? ==> SoundThread(o.world, o.pc.value))
  {
    ProvisionEvolves(w, draft, f);
    ProvisionIsPrivate(w, draft, f);
    ProvisionIsSound(w, draft, f);
    hide Evolves, SoundRow, SoundWorld;
  }

  lemma ProvisionIsPrivate(w: World, draft: Row, f: Fate)
    requires SoundWorld(w) && draft.quota > 0
    ensures var o := Provision(w, draft, f); o.pc.Some? ==> SoundThread(o.world, o.pc.value)
  {}

  lemma ProvisionIsSound(w: World, draft: Row, f: Fate)
    requires SoundWorld(w) && draft.quota > 0
    ensures SoundWorld(Provision(w, draft, f).world)
  {
    forall s | s in w.db.subs ensures SoundRow(Provision(w, draft, f).world, s, w.db.subs[s]) {
      assert SoundRow(w, s, w.db.subs[s]);
    }
    hide SoundRow;
  }

  lemma ProvisionEvolves(w: World, draft: Row, f: Fate)
    requires SoundWorld(w)
    ensures Evolves(w, Provision(w, draft, f).world)
  {
    hide SoundRow;
  }

  lemma DropPlanKeeps(w: World, p: Id)
    requires SoundWorld(w)
    ensures Keeps(w, w.(db := w.db.RemovePlan(p)))
  {}

  lemma DropNodeKeeps(w: World, n: Id)
    requires SoundWorld(w)
    ensures Keeps(w, w.(db := w.db.RemoveNode(n)))
  {}

  lemma HoldingKeepsBook(w: World, sid: Id)
    ensures var w' := Holding(w, sid);
      BookKept(w.book, w'.book) && w'.db == w.db && w'.fleet == w.fleet && w'.next == w.next && w'.clock == w.clock
      && w'.book.log == w.book.log
  {}

  lemma BuyKeeps(w: World, w1: World, sid: Id, bytes: int)
    requires SoundWorld(w)
    requires w1.db == w.db.AddQuota(sid, bytes) && w1.fleet == w.fleet && w1.next == w.next && w1.clock == w.clock
    requires BookKept(w.book, w1.book)
    ensures Keeps(w, Holding(w1, sid))
  {
    HoldingKeepsBook(w1, sid);
    if sid in w.db.subs {
      var row := w.db.subs[sid];
      UpdateKeeps(w, Holding(w1, sid), sid, row.(quota := Max(0, row.quota + bytes)));
    } else {
      BookKeeps(w, Holding(w1, sid));
    }
  }

  lemma SwitchRowKeeps(w: World, sid: Id, status: string)
    requires SoundWorld(w)
    ensures Keeps(w, SwitchRow(w, sid, status))
  {
    if sid in w.db.subs {
      UpdateKeeps(w, SwitchRow(w, sid, status), sid, w.db.subs[sid].(status := status));
    } else {
      BookKeeps(w, SwitchRow(w, sid, status));
    }
  }

  lemma SwitchTenantKeeps(w: World, at: Addr, status: string, f: Fate)
    requires SoundWorld(w)
    ensures Keeps(w, SwitchTenant(w, at, status, f))
  {
    if at in w.fleet { CallKeeps(w, at, w.fleet[at].(status := status)); }
    BookKeeps(w, w);
  }

  lemma ConfigureKeeps(w: World, at: Addr, quota: int, credit: int, expire: int, f: Fate)
    requires SoundWorld(w) && quota >= 0
    ensures Keeps(w, Configure(w, at, quota, credit, expire, f))
  {
    if at in w.fleet { CallKeeps(w, at, w.fleet[at].(quota := quota, credit := credit, expire := expire)); }
    BookKeeps(w, w);
  }

  lemma ResetKeeps(w: World, at: Addr)
    requires SoundWorld(w) && at in w.fleet
    ensures Keeps(w, ResetTenant(w, at))
  {
    var t := w.fleet[at];
    CallKeeps(w, at, t.(resets := t.resets + 1, used := 0, status := "active"));
  }

  lemma KeyKeeps(w: World, key: Id, customer: Id)
    requires SoundWorld(w) && customer in w.db.customers
    ensures Keeps(w, w.(db := w.db.InsertKey(key, customer)))
  {}

  lemma CustomerStatusKeeps(w: World, customer: Id, status: string)
    requires SoundWorld(w)
    ensures Keeps(w, w.(db := w.db.SetCustomerStatus(customer, status)))
  {}

  lemma SpendingKeeps(w: World, w1: World, sid: Id)
    requires Keeps(w, w1)
    ensures Keeps(w, Spending(w1, sid))
  {
    BookKeeps(w1, Spending(w1, sid));
    EvolvesTrans(w, w1, Spending(w1, sid));
  }

  lemma IdsAreBelowNext(w: World)
    requires SoundWorld(w)
    ensures forall r | r in w.db.subs :: r < w.next && w.db.subs[r].tenant < w.next
  {
    forall r | r in w.db.subs
      ensures r < w.next && w.db.subs[r].tenant < w.next
    { assert SoundRow(w, r, w.db.subs[r]); }
  }

  lemma SnapshotIsStable(w: World, w': World, sid: Id, row: Row)
    requires Snapshot(w, sid, row) && Evolves(w, w')
    ensures Snapshot(w', sid, row)
  {}

  // ---------- every step keeps it ----------

  ghost predicate StepKeeps(w: World, o: Outcome) {
    Keeps(w, o.world) && (o.pc.Some? ==> SoundThread(o.world, o.pc.value))
  }

  lemma PlansAreSound(w: World, p: Id)
    requires SoundWorld(w) && p in w.db.plans
    ensures PlanRead(w, p, w.db.plans[p])
  {}

  lemma RowQuota(w: World, sid: Id)
    requires SoundWorld(w) && sid in w.db.subs
    ensures w.db.subs[sid].quota >= 0
  {}

  lemma SnapshotQuota(w: World, sid: Id, row: Row)
    requires Snapshot(w, sid, row)
    ensures row.quota >= 0
  {}

  lemma CreateKeeps(w: World, c: Creating, f: Fate)
    requires SoundWorld(w) && SoundCreating(w, c)
    ensures StepKeeps(w, CreateStep(w, c, f))
  {
    hide SoundWorld, Evolves, Provision, Private, Snapshot;
    BookKeeps(w, w);
    match c
    case ReadCustomer(customer, p, n, credit) =>
    case ReadPlan(customer, p, n, credit) => if p in w.db.plans { PlansAreSound(w, p); }
    case ReadNode(customer, p, plan, n, credit) => BookKeeps(w, CreateStep(w, c, f).world);
    case CallCreate(draft) => ProvisionKeeps(w, draft, f);
    case Insert(row, key) => if w.db.CanInsert(row) { StoredKeeps(w, row); }
    case InsertKey(sid, row, key) => if row.customer in w.db.customers { KeyKeeps(w, key, row.customer); }
    case Undo(row, stored) =>
      var w1 := Deprovision(w, row.At(), f);
      DeprovisionKeeps(w, row.At(), f);
      BookKeeps(w1, Abandon(w1, row.At()));
      EvolvesTrans(w, w1, Abandon(w1, row.At()));
    case Unstore(sid) =>
      RemoveKeeps(w, sid);
      BookKeeps(w, w.(book := w.book.(kept := w.book.kept + {sid})));
  }

  lemma DeleteKeeps(w: World, d: Deleting, f: Fate)
    requires SoundWorld(w) && SoundThread(w, Delete(d))
    ensures StepKeeps(w, DeleteStep(w, d, f))
  {
    BookKeeps(w, w);
    match d
    case ReadSub(sid) =>
    case ReadItsNode(sid, row) =>
    case CallDelete(sid, row) =>
      DeprovisionKeeps(w, row.At(), f);
      SnapshotIsStable(w, Deprovision(w, row.At(), f), sid, row);
    case DeleteRow(sid, row) => RemoveKeeps(w, sid);
  }

  lemma ListingIsSound(w: World, customer: Id)
    requires SoundWorld(w)
    ensures Snapshots(w, w.db.OfCustomer(customer))
  {}

  lemma PurgeKeeps(w: World, customer: Id, p: Purging, f: Fate)
    requires SoundWorld(w) && SoundThread(w, Purge(customer, p))
    ensures StepKeeps(w, PurgeStep(w, customer, p, f))
  {
    hide SoundWorld, Evolves, Snapshot, Stranded;
    BookKeeps(w, w);
    match p
    case ListAll => ListingIsSound(w, customer);
    case Each(listed, done) => CascadeKeeps(w, customer);
    case Evict(listed, done, sid) =>
      DeprovisionKeeps(w, listed[sid].At(), f);
      forall s | s in listed ensures Snapshot(Deprovision(w, listed[sid].At(), f), s, listed[s]) {
        SnapshotIsStable(w, Deprovision(w, listed[sid].At(), f), s, listed[s]);
      }
  }

  lemma ToggleKeeps(w: World, customer: Id, enable: bool, t: Toggling, f: Fate)
    requires SoundWorld(w)
    ensures StepKeeps(w, ToggleStep(w, customer, enable, t, f))
  {
    hide SoundWorld, Evolves;
    var status := if enable then "active" else "suspended";
    BookKeeps(w, w);
    match t
    case ListThem =>
    case Every(listed, done) => CustomerStatusKeeps(w, customer, if enable then "active" else "disabled");
    case CallNode(listed, done, sid) => if sid in listed { SwitchTenantKeeps(w, listed[sid].At(), status, f); }
    case WriteRow(listed, done, sid) => SwitchRowKeeps(w, sid, status);
    case Confirm =>
  }

  lemma LifecycleKeeps(w: World, sid: Id, row: Row, target: string, acked: bool, f: Fate)
    requires SoundWorld(w) && Snapshot(w, sid, row)
    ensures StepKeeps(w, LifecycleStep(w, sid, row, target, acked, f))
  {
    BookKeeps(w, w);
    SwitchTenantKeeps(w, row.At(), target, f);
    SnapshotIsStable(w, SwitchTenant(w, row.At(), target, f), sid, row);
    var w1 := SwitchRow(w, sid, target);
    var w2 := Noting(w1, [StatusSent(sid, target, false)]);
    SwitchRowKeeps(w, sid, target);
    BookKeeps(w1, w2);
    EvolvesTrans(w, w1, w2);
  }

  lemma TopupKeeps(w: World, sid: Id, row: Row, t: TopupPhase, f: Fate)
    requires SoundWorld(w) && SoundThread(w, Topup(sid, row, t))
    ensures StepKeeps(w, TopupStep(w, sid, row, t, f))
  {
    hide SoundWorld, Evolves, Snapshot;
    BookKeeps(w, w);
    var w' := TopupStep(w, sid, row, t, f).world;
    match t {
      case Add(bytes) =>
        BuyKeeps(w, w.(db := w.db.AddQuota(sid, bytes),
                       book := w.book.(log := w.book.log + [Purchase(sid, bytes, false)])), sid, bytes);
      case ReadBack(bytes, ticket) => if sid in w.db.subs { RowQuota(w, sid); }
      case CallSet(bytes, ticket, quota) => ConfigureKeeps(w, row.At(), quota, row.credit, row.endAt, f);
      case TakeBack(bytes, ticket, _) =>
        if ticket < |w.book.log| {
          BuyKeeps(w, w.(db := w.db.AddQuota(sid, -bytes),
                         book := w.book.(log := w.book.log[ticket := w.book.log[ticket].(undone := true)])),
                   sid, -bytes);
        }
      case CallResume(quota) => SwitchTenantKeeps(w, row.At(), "active", f);
      case WriteStatus(quota) => SwitchRowKeeps(w, sid, "active");
      case WriteNotified(quota) => RearmKeeps(w, sid, Threshold.Level(row.used, quota));
    }
    SnapshotIsStable(w, w', sid, row);
  }

  lemma RearmKeeps(w: World, sid: Id, level: int)
    requires SoundWorld(w)
    ensures Keeps(w, Rearm(w, sid, level))
  {
    if sid in w.db.subs {
      UpdateKeeps(w, Rearm(w, sid, level), sid, w.db.subs[sid].(notified := level));
    } else {
      BookKeeps(w, Rearm(w, sid, level));
    }
  }

  lemma RenewedKeeps(w: World, sid: Id, endAt: int, guessed: bool)
    requires SoundWorld(w) && sid in w.db.subs
    ensures Keeps(w, Renewed(w, sid, endAt, guessed))
  {
    UpdateKeeps(w, Renewed(w, sid, endAt, guessed), sid, w.db.Renew(sid, endAt).subs[sid]);
  }

  lemma ResettingKeeps(w: World, sid: Id, row: Row, endAt: int, guessed: bool, f: Fate)
    requires SoundWorld(w) && Snapshot(w, sid, row)
    ensures StepKeeps(w, RenewStep(w, sid, row, CallReset(endAt, guessed), f))
  {
    hide SoundWorld, Evolves, Snapshot, ResetTenant, Spending;
    BookKeeps(w, w);
    if row.At() in w.fleet {
      var w1 := ResetTenant(w, row.At());
      ResetKeeps(w, row.At());
      SnapshotIsStable(w, w1, sid, row);
      SpendingKeeps(w, w1, sid);
    }
  }

  lemma RenewingKeeps(w: World, sid: Id, row: Row, endAt: int, guessed: bool, f: Fate)
    requires SoundWorld(w) && Snapshot(w, sid, row)
    ensures StepKeeps(w, RenewStep(w, sid, row, CallRenewed(endAt, guessed), f))
  {
    SnapshotQuota(w, sid, row);
    hide SoundWorld, Evolves, Snapshot, Configure, Spending;
    var w1 := Configure(w, row.At(), row.quota, row.credit, endAt, f);
    ConfigureKeeps(w, row.At(), row.quota, row.credit, endAt, f);
    SnapshotIsStable(w, w1, sid, row);
    SpendingKeeps(w, w1, sid);
  }

  lemma RenewKeeps(w: World, sid: Id, row: Row, r: RenewPhase, f: Fate)
    requires SoundWorld(w) && Snapshot(w, sid, row)
    ensures StepKeeps(w, RenewStep(w, sid, row, r, f))
  {
    hide SoundWorld, Evolves, Snapshot, ResetTenant, Configure, Spending, Renewed;
    BookKeeps(w, w);
    match r {
      case ReadItsPlan =>
        BookKeeps(w, RenewStep(w, sid, row, r, f).world);
        SnapshotIsStable(w, RenewStep(w, sid, row, r, f).world, sid, row);
      case CallReset(endAt, guessed) => ResettingKeeps(w, sid, row, endAt, guessed, f);
      case CallRenewed(endAt, guessed) => RenewingKeeps(w, sid, row, endAt, guessed, f);
      case WriteRenewed(endAt, guessed) =>
        SpendingKeeps(w, w, sid);
        if sid in w.db.subs { RenewedKeeps(w, sid, endAt, guessed); }
    }
  }

  lemma NextKeeps(w: World, pc: Pc, f: Fate)
    requires SoundWorld(w) && SoundThread(w, pc)
    ensures StepKeeps(w, Next(w, pc, f))
  {
    hide Evolves, Keeps;
    match pc
    case Create(c) => CreateKeeps(w, c, f);
    case Delete(d) => DeleteKeeps(w, d, f);
    case Purge(c, p) => PurgeKeeps(w, c, p, f);
    case Toggle(c, enable, t) => ToggleKeeps(w, c, enable, t, f);
    case LoadSub(sid, task) => BookKeeps(w, w);
    case LoadNode(sid, row, task) => BookKeeps(w, w);
    case Lifecycle(sid, row, target, acked) => LifecycleKeeps(w, sid, row, target, acked, f);
    case Topup(sid, row, t) => TopupKeeps(w, sid, row, t, f);
    case Renew(sid, row, r) => RenewKeeps(w, sid, row, r, f);
    case DropPlan(p) => DropPlanKeeps(w, p); BookKeeps(w, w);
    case DropNodeCount(n) => BookKeeps(w, w);
    case DropNode(n) => DropNodeKeeps(w, n); BookKeeps(w, w);
  }

  // ---------- steps that move no row and no tenant in or out ----------

  ghost predicate Steady(w: World, w': World) {
    && w'.db.subs.Keys == w.db.subs.Keys && w'.fleet.Keys == w.fleet.Keys
    && w'.book.owner == w.book.owner && w'.book.base == w.book.base && w'.book.held.Keys == w.book.held.Keys
    && w'.book.abandoned == w.book.abandoned && w'.book.lost == w.book.lost && w'.book.swept == w.book.swept
  }

  lemma TopupIsSteady(w: World, sid: Id, row: Row, t: TopupPhase, f: Fate)
    ensures Steady(w, TopupStep(w, sid, row, t, f).world)
  {
    hide Threshold.Level;
    if t.CallSet? || t.CallResume? { hide Buy, Unbuy, Rearm, SwitchRow; } else { hide Configure, SwitchTenant; }
  }

  lemma RenewIsSteady(w: World, sid: Id, row: Row, r: RenewPhase, f: Fate)
    ensures Steady(w, RenewStep(w, sid, row, r, f).world)
  {}

  lemma ToggleIsSteady(w: World, customer: Id, enable: bool, t: Toggling, f: Fate)
    ensures Steady(w, ToggleStep(w, customer, enable, t, f).world)
  {}

  lemma LifecycleIsSteady(w: World, sid: Id, row: Row, target: string, acked: bool, f: Fate)
    ensures Steady(w, LifecycleStep(w, sid, row, target, acked, f).world)
  {}

  predicate Comes(pc: Pc) { pc.Create? || pc.Delete? || pc.Purge? }

  lemma NextIsSteady(w: World, pc: Pc, f: Fate)
    requires !Comes(pc)
    ensures var o := Next(w, pc, f);
      Steady(w, o.world) && (o.pc.Some? ==> !Comes(o.pc.value) && Secret(o.pc.value).None?)
  {
    hide TopupStep, RenewStep, ToggleStep, LifecycleStep;
    match pc
    case Toggle(c, enable, t) => ToggleIsSteady(w, c, enable, t, f); ToggleStays(w, c, enable, t, f);
    case Lifecycle(sid, row, target, acked) =>
      LifecycleIsSteady(w, sid, row, target, acked, f);
      LifecycleStays(w, sid, row, target, acked, f);
    case Topup(sid, row, t) => TopupIsSteady(w, sid, row, t, f); TopupStays(w, sid, row, t, f);
    case Renew(sid, row, r) => RenewIsSteady(w, sid, row, r, f); RenewStays(w, sid, row, r, f);
    case _ =>
  }

  lemma CreateStays(w: World, c: Creating, f: Fate)
    ensures var o := CreateStep(w, c, f); o.pc.Some? ==> o.pc.value.Create?
  {}

  lemma TopupStays(w: World, sid: Id, row: Row, t: TopupPhase, f: Fate)
    ensures var o := TopupStep(w, sid, row, t, f);
      o.pc.Some? ==> o.pc.value.Topup? && o.pc.value.sid == sid && o.pc.value.row == row
  {}

  lemma RenewStays(w: World, sid: Id, row: Row, r: RenewPhase, f: Fate)
    ensures var o := RenewStep(w, sid, row, r, f);
      o.pc.Some? ==> o.pc.value.Renew? && o.pc.value.sid == sid && o.pc.value.row == row
  {}

  lemma ToggleStays(w: World, customer: Id, enable: bool, t: Toggling, f: Fate)
    ensures var o := ToggleStep(w, customer, enable, t, f); o.pc.Some? ==> o.pc.value.Toggle?
  {}

  lemma LifecycleStays(w: World, sid: Id, row: Row, target: string, acked: bool, f: Fate)
    ensures var o := LifecycleStep(w, sid, row, target, acked, f); o.pc.Some? ==> o.pc.value.Lifecycle?
  {}

  /** A step publishes no tenant but its own, and a new secret is a new tenant. */
  ghost predicate Discreet(w: World, pc: Pc, o: Outcome) {
    && (forall a | a in o.world.book.owner :: a in w.book.owner || Secret(pc) == Some(a))
    && (o.pc.Some? ==> Secret(o.pc.value).None? || Secret(o.pc.value) == Secret(pc)
                       || Secret(o.pc.value).value.tenant == w.next)
  }

  lemma NextIsDiscreet(w: World, pc: Pc, f: Fate)
    ensures Discreet(w, pc, Next(w, pc, f))
  {
    hide CreateStep;
    if pc.Create? { CreateIsDiscreet(w, pc.creating, f); } else if !Comes(pc) { NextIsSteady(w, pc, f); }
  }

  lemma CreateIsDiscreet(w: World, c: Creating, f: Fate)
    ensures Discreet(w, Create(c), CreateStep(w, c, f))
  {}

  /** Another thread's step does not disturb a thread, unless it publishes the thread's secret. */
  lemma ThreadIsStable(w: World, w': World, pc: Pc)
    requires SoundThread(w, pc) && Evolves(w, w')
    requires Secret(pc).Some? && Secret(pc).value in w'.book.owner ==> Secret(pc).value in w.book.owner
    ensures SoundThread(w', pc)
  {}

  // ---------- every event keeps it ----------

  lemma MoveKeeps(s: System, tid: Id, f: Fate)
    requires Sound(s) && tid in s.threads
    ensures var s' := Apply(s, Move(tid, f)); Sound(s') && Evolves(s.w, s'.w)
  {
    var pc := s.threads[tid];
    var o := Next(s.w, pc, f);
    var s' := Apply(s, Move(tid, f));
    NextKeeps(s.w, pc, f);
    NextIsDiscreet(s.w, pc, f);
    hide Next, SoundRow;
    forall t | t in s'.threads ensures SoundThread(s'.w, s'.threads[t]) {
      if t != tid {
        ThreadIsStable(s.w, o.world, s.threads[t]);
      }
    }
    hide SoundWorld, Evolves, SoundThread;
    SecretsStayApart(s, s', tid, o);
  }

  lemma SecretsStayApart(s: System, s': System, tid: Id, o: Outcome)
    requires Sound(s) && tid in s.threads && Discreet(s.w, s.threads[tid], o)
    requires s'.threads == if o.pc.Some? then s.threads[tid := o.pc.value] else s.threads - {tid}
    ensures forall t, u | t in s'.threads && u in s'.threads && t != u ::
      Secret(s'.threads[t]).None? || Secret(s'.threads[t]) != Secret(s'.threads[u])
  {
    hide SoundWorld, SoundThread;
    forall t | t in s.threads ensures Secret(s.threads[t]).Some? ==> Secret(s.threads[t]).value.tenant < s.w.next {
      SecretsAreOld(s, t);
    }
  }

  lemma SecretsAreOld(s: System, t: Id)
    requires Sound(s)
    ensures t in s.threads && Secret(s.threads[t]).Some? ==> Secret(s.threads[t]).value.tenant < s.w.next
  {
    if t in s.threads { assert SoundThread(s.w, s.threads[t]); }
  }

  /** An event that moves no thread: all threads stay sound as long as no tenant is published. */
  lemma ElsewhereKeeps(s: System, w': World)
    requires Sound(s) && Keeps(s.w, w') && w'.book.owner == s.w.book.owner
    ensures Sound(System(w', s.threads))
  {
    forall t | t in s.threads ensures SoundThread(w', s.threads[t]) {
      ThreadIsStable(s.w, w', s.threads[t]);
    }
  }

  lemma GrowthKeeps(w: World, w': World)
    requires SoundWorld(w) && w.next < w'.next && w'.fleet == w.fleet && w'.clock == w.clock && w'.book == w.book
    requires w'.db.subs == w.db.subs && w'.db.keys == w.db.keys
    requires w.db.customers.Keys <= w'.db.customers.Keys && w.db.nodes <= w'.db.nodes
    requires forall p | p in w.db.plans :: p in w'.db.plans && w'.db.plans[p] == w.db.plans[p]
    requires forall p | p in w'.db.plans ::
             p in w.db.plans || (w.next == p && w'.db.plans[p].quota > 0 && w'.db.plans[p].days > 0)
    ensures Keeps(w, w')
  {}

  lemma ObserveKeeps(w: World, sid: Id, snap: Row, u: Usage, wr: Writes)
    requires SoundWorld(w)
    ensures Keeps(w, ObserveRow(w, sid, snap, u, wr))
  {
    if sid in w.db.subs {
      UpdateKeeps(w, ObserveRow(w, sid, snap, u, wr), sid, Folded(w.db.subs[sid], snap, u, wr));
    } else {
      BookKeeps(w, ObserveRow(w, sid, snap, u, wr));
    }
  }

  lemma ApplyKeeps(s: System, e: Event)
    requires Sound(s)
    ensures Sound(Apply(s, e)) && Evolves(s.w, Apply(s, e).w)
  {
    var w := s.w;
    hide SoundWorld, Evolves, SoundThread;
    BookKeeps(w, w);
    var w' := Apply(s, e).w;
    match e {
      case Arrive(tid, request) => ArriveKeeps(s, tid, request);
      case Move(tid, f) => if tid in s.threads { MoveKeeps(s, tid, f); }
      case Tick(n) => BookKeeps(w, w'); ElsewhereKeeps(s, w');
      case Enforce(at, used, status) => EnforceKeeps(s, at, used, status);
      case Observe(sid, snap, u, wr) => ObserveKeeps(w, sid, snap, u, wr); ElsewhereKeeps(s, w');
      case AddCustomer => GrowthKeeps(w, w'); ElsewhereKeeps(s, w');
      case AddPlan(plan) => if plan.quota > 0 && plan.days > 0 { AddPlanKeeps(w, plan); ElsewhereKeeps(s, w'); }
      case AddNode => GrowthKeeps(w, w'); ElsewhereKeeps(s, w');
    }
  }

  lemma AddPlanKeeps(w: World, plan: Plan)
    requires SoundWorld(w) && plan.quota > 0 && plan.days > 0
    ensures Keeps(w, w.(db := w.db.(plans := w.db.plans[w.next := plan]), next := w.next + 1))
  {
    GrowthKeeps(w, w.(db := w.db.(plans := w.db.plans[w.next := plan]), next := w.next + 1));
  }

  lemma EnforceKeeps(s: System, at: Addr, used: int, status: string)
    requires Sound(s)
    ensures var s' := Apply(s, Enforce(at, used, status)); Sound(s') && Evolves(s.w, s'.w)
  {
    BookKeeps(s.w, s.w);
    if at in s.w.fleet {
      CallKeeps(s.w, at, s.w.fleet[at].(used := used, status := status));
      ElsewhereKeeps(s, Apply(s, Enforce(at, used, status)).w);
    }
  }

  lemma ArriveKeeps(s: System, tid: Id, request: Pc)
    requires Sound(s)
    ensures var s' := Apply(s, Arrive(tid, request)); Sound(s') && Evolves(s.w, s'.w)
  {
    BookKeeps(s.w, s.w);
  }

  /** Events other than a thread's step: nothing comes or goes, except that a request may arrive. */
  lemma QuietIsSteady(s: System, e: Event)
    requires Sound(s) && (e.Move? ==> e.tid !in s.threads)
    ensures var s' := Apply(s, e);
      && Steady(s.w, s'.w)
      && (forall t | t in s.threads :: t in s'.threads && s'.threads[t] == s.threads[t])
      && (forall t | t in s'.threads && t !in s.threads :: IsRequest(s'.threads[t]))
  {
    hide Sound, Next;
  }

  /** Every state that an installation can reach is sound. */
  lemma {:induction false} RunIsSound(clock: int, es: seq<Event>)
    ensures Sound(Run(Fresh(clock), es))
  {
    if es != [] {
      RunIsSound(clock, es[..|es| - 1]);
      ApplyKeeps(Run(Fresh(clock), es[..|es| - 1]), es[|es| - 1]);
    }
  }

  /** And what one state of a run has recorded, the later ones still have. */
  lemma {:induction false} RunEvolves(clock: int, es: seq<Event>, i: nat, j: nat)
    requires i <= j <= |es|
    ensures Evolves(Run(Fresh(clock), es[..i]).w, Run(Fresh(clock), es[..j]).w)
    decreases j
  {
    if i == j {
      RunIsSound(clock, es[..i]);
      BookKeeps(Run(Fresh(clock), es[..i]).w, Run(Fresh(clock), es[..i]).w);
    } else {
      RunEvolves(clock, es, i, j - 1);
      RunIsSound(clock, es[..j - 1]);
      assert es[..j][..j - 1] == es[..j - 1];
      var s := Run(Fresh(clock), es[..j - 1]);
      ApplyKeeps(s, es[j - 1]);
      EvolvesTrans(Run(Fresh(clock), es[..i]).w, s.w, Apply(s, es[j - 1]).w);
      hide Evolves, Apply, Sound;
    }
  }
}
