/**
 * In every interleaving, a handler's step changes or removes only rows and tenants of the
 * subscription or of the customer that the handler was asked about.
 */
module Scope {
  import opened Domain
  import opened Database
  import opened Protocol
  import opened Structure
  import opened Overlap

  /** A subscription, where its tenant lives, and whose it is. */
  datatype Fact = Fact(sid: Id, at: Addr, customer: Id)

  function FactOf(sid: Id, row: Row): Fact { Fact(sid, row.At(), row.customer) }

  ghost predicate Holds(w: World, x: Fact) { x.sid in w.db.subs && FactOf(x.sid, w.db.subs[x.sid]) == x }

  /** At some moment of the run such a row was stored. */
  ghost predicate Held(clock: int, es: seq<Event>, x: Fact) {
    exists k :: 0 <= k <= |es| && Holds(Run(Fresh(clock), es[..k]).w, x)
  }

  /** The subscriptions that a request is about, and for a create the one that it stores. */
  predicate IsAbout(pc: Pc, sid: Id, customer: Id) {
    match pc
    case Create(InsertKey(s, _, _)) => s == sid
    case Create(Undo(_, stored)) => stored == Some(sid)
    case Create(Unstore(s)) => s == sid
    case Create(_) => false
    case Delete(d) => d.sid == sid
    case Purge(c, _) => c == customer
    case Toggle(c, _, _) => c == customer
    case LoadSub(s, _) => s == sid
    case LoadNode(s, _, _) => s == sid
    case Lifecycle(s, _, _, _) => s == sid
    case Topup(s, _, _) => s == sid
    case Renew(s, _, _) => s == sid
    case _ => false
  }

  // ---------- what threads remember ----------

  ghost predicate Listed(known: iset<Fact>, customer: Id, listed: map<Id, Row>) {
    forall s | s in listed :: Fact(s, listed[s].At(), customer) in known
  }

  /** Every row that the thread holds on to was stored at some moment, and is one that it is about. */
  ghost predicate Remembers(known: iset<Fact>, pc: Pc) {
    match pc
    case Create(InsertKey(sid, row, _)) => FactOf(sid, row) in known
    case Create(Undo(row, stored)) => stored.Some? ==> FactOf(stored.value, row) in known
    case Create(_) => true
    case Delete(d) => d.ReadSub? || FactOf(d.sid, d.row) in known
    case Purge(c, p) => p.ListAll? || Listed(known, c, p.listed)
    case Toggle(c, _, t) => t.ListThem? || t.Confirm?
        || (Listed(known, c, t.listed) && (t.WriteRow? ==> t.sid in t.listed))
    case LoadNode(sid, row, _) => FactOf(sid, row) in known
    case Lifecycle(sid, row, _, _) => FactOf(sid, row) in known
    case Topup(sid, row, _) => FactOf(sid, row) in known
    case Renew(sid, row, _) => FactOf(sid, row) in known
    case _ => true
  }

  ghost predicate Knows(known: iset<Fact>, w: World) { forall x | Holds(w, x) :: x in known }

  lemma NextRemembers(w: World, pc: Pc, f: Fate, known: iset<Fact>)
    requires Remembers(known, pc) && Knows(known, w) && Knows(known, Next(w, pc, f).world)
    ensures var o := Next(w, pc, f); o.pc.Some? ==> Remembers(known, o.pc.value)
  {
    assert forall s | s in w.db.subs :: Holds(w, FactOf(s, w.db.subs[s]));
    hide CreateStep, PurgeStep, ToggleStep, TopupStep, RenewStep;
    match pc
    case Create(c) => CreateRemembers(w, c, f, known);
    case Purge(c, p) => PurgeRemembers(w, c, p, f, known);
    case Toggle(c, enable, t) => ToggleRemembers(w, c, enable, t, f, known);
    case Topup(sid, row, t) => TopupStays(w, sid, row, t, f);
    case Renew(sid, row, r) => RenewStays(w, sid, row, r, f);
    case _ =>
  }

  lemma CreateRemembers(w: World, c: Creating, f: Fate, known: iset<Fact>)
    requires Remembers(known, Create(c)) && Knows(known, CreateStep(w, c, f).world)
    ensures var o := CreateStep(w, c, f); o.pc.Some? ==> Remembers(known, o.pc.value)
  {
    if c.Insert? && f.db && w.db.CanInsert(c.row) { assert Holds(CreateStep(w, c, f).world, FactOf(w.next, c.row)); }
  }

  lemma PurgeRemembers(w: World, customer: Id, p: Purging, f: Fate, known: iset<Fact>)
    requires Remembers(known, Purge(customer, p)) && Knows(known, w)
    ensures var o := PurgeStep(w, customer, p, f); o.pc.Some? ==> Remembers(known, o.pc.value)
  {
    assert forall s | s in w.db.subs && w.db.subs[s].customer == customer ::
        Holds(w, Fact(s, w.db.subs[s].At(), customer));
  }

  lemma ToggleRemembers(w: World, customer: Id, enable: bool, t: Toggling, f: Fate, known: iset<Fact>)
    requires Remembers(known, Toggle(customer, enable, t)) && Knows(known, w)
    ensures var o := ToggleStep(w, customer, enable, t, f); o.pc.Some? ==> Remembers(known, o.pc.value)
  {
    assert forall s | s in w.db.subs && w.db.subs[s].customer == customer ::
        Holds(w, Fact(s, w.db.subs[s].At(), customer));
  }

  ghost function History(clock: int, es: seq<Event>): iset<Fact> { iset x | Held(clock, es, x) }

  lemma HistoryGrows(clock: int, es: seq<Event>, e: Event)
    ensures History(clock, es) <= History(clock, es + [e])
    ensures Knows(History(clock, es + [e]), Run(Fresh(clock), es + [e]).w)
    ensures Knows(History(clock, es), Run(Fresh(clock), es).w)
  {
    hide Run, Fresh;
    assert es[..|es|] == es && (es + [e])[..|es + [e]|] == es + [e];
    assert forall k | 0 <= k <= |es| :: (es + [e])[..k] == es[..k];
  }

  lemma RemembersMore(known: iset<Fact>, known': iset<Fact>, pc: Pc)
    requires Remembers(known, pc) && known <= known'
    ensures Remembers(known', pc)
  {}

  lemma {:induction false} AllRemember(clock: int, es: seq<Event>)
    ensures var s := Run(Fresh(clock), es); forall t | t in s.threads :: Remembers(History(clock, es), s.threads[t])
    decreases |es|
  {
    if es != [] {
      var init, e := es[..|es| - 1], es[|es| - 1];
      assert es == init + [e];
      AllRemember(clock, init);
      HistoryGrows(clock, init, e);
      var s, s' := Run(Fresh(clock), init), Run(Fresh(clock), es);
      var known, known' := History(clock, init), History(clock, es);
      hide Next, Remembers, Knows, History;
      forall t | t in s'.threads ensures Remembers(known', s'.threads[t]) {
        ThreadsAfter(s, e, t);
        if t in s.threads {
          RemembersMore(known, known', s.threads[t]);
          if e.Move? && e.tid == t { MoveRemembers(s, t, e.fate, known, known'); }
        } else {
          RequestsRememberNothing(known', s'.threads[t]);
        }
      }
    }
  }

  lemma MoveRemembers(s: System, tid: Id, f: Fate, known: iset<Fact>, known': iset<Fact>)
    requires tid in s.threads && Remembers(known', s.threads[tid]) && known <= known'
    requires Knows(known, s.w) && Knows(known', Next(s.w, s.threads[tid], f).world)
    ensures var o := Next(s.w, s.threads[tid], f); o.pc.Some? ==> Remembers(known', o.pc.value)
  {
    hide Remembers;
    assert Knows(known', s.w);
    NextRemembers(s.w, s.threads[tid], f, known');
    hide Next;
  }

  lemma RequestsRememberNothing(known: iset<Fact>, pc: Pc)
    requires IsRequest(pc)
    ensures Remembers(known, pc)
  {}

  // ---------- what a step touches ----------

  ghost predicate TenantTouched(w: World, w': World, a: Addr) {
    a in w.fleet && !(a in w'.fleet && w'.fleet[a] == w.fleet[a])
  }

  ghost predicate RowTouched(w: World, w': World, r: Id) {
    r in w.db.subs && !(r in w'.db.subs && w'.db.subs[r] == w.db.subs[r])
  }

  lemma NextTouchesTenant(w: World, pc: Pc, f: Fate, known: iset<Fact>, a: Addr)
    requires Remembers(known, pc) && a.tenant < w.next && TenantTouched(w, Next(w, pc, f).world, a)
    requires SoundThread(w, pc)
    ensures Secret(pc) == Some(a) || exists x :: x in known && x.at == a && IsAbout(pc, x.sid, x.customer)
  {
    hide CreateStep, DeleteStep, PurgeStep, ToggleStep, LifecycleStep, TopupStep, RenewStep;
    match pc
    case Create(c) => CreateTouchesTenant(w, c, f, known, a);
    case Delete(d) => DeleteTouchesTenant(w, d, f, a); assert FactOf(d.sid, d.row).at == a;
    case Purge(c, p) => PurgeTouchesTenant(w, c, p, f, a); assert Fact(p.sid, p.listed[p.sid].At(), c).at == a;
    case Toggle(c, enable, t) =>
      ToggleTouchesTenant(w, c, enable, t, f, a);
      assert Fact(t.sid, t.listed[t.sid].At(), c).at == a;
    case Lifecycle(sid, row, target, acked) =>
      LifecycleTouchesTenant(w, sid, row, target, acked, f, a);
      assert FactOf(sid, row).at == a;
    case Topup(sid, row, t) => TopupTouchesTenant(w, sid, row, t, f, a); assert FactOf(sid, row).at == a;
    case Renew(sid, row, r) => RenewTouchesTenant(w, sid, row, r, f, a); assert FactOf(sid, row).at == a;
    case _ =>
  }

  lemma CreateTouchesTenant(w: World, c: Creating, f: Fate, known: iset<Fact>, a: Addr)
    requires Remembers(known, Create(c)) && a.tenant < w.next && TenantTouched(w, CreateStep(w, c, f).world, a)
    ensures Secret(Create(c)) == Some(a) || exists x :: x in known && x.at == a && IsAbout(Create(c), x.sid, x.customer)
  {
    if c.Undo? && c.stored.Some? { assert FactOf(c.stored.value, c.row) in known; }
  }

  lemma DeleteTouchesTenant(w: World, d: Deleting, f: Fate, a: Addr)
    requires TenantTouched(w, DeleteStep(w, d, f).world, a)
    ensures d.CallDelete? && d.row.At() == a
  {}

  lemma PurgeTouchesTenant(w: World, customer: Id, p: Purging, f: Fate, a: Addr)
    requires TenantTouched(w, PurgeStep(w, customer, p, f).world, a)
    ensures p.Evict? && p.sid in p.listed && p.listed[p.sid].At() == a
  {}

  lemma ToggleTouchesTenant(w: World, customer: Id, enable: bool, t: Toggling, f: Fate, a: Addr)
    requires TenantTouched(w, ToggleStep(w, customer, enable, t, f).world, a)
    ensures t.CallNode? && t.sid in t.listed && t.listed[t.sid].At() == a
  {}

  lemma LifecycleTouchesTenant(w: World, sid: Id, row: Row, target: string, acked: bool, f: Fate, a: Addr)
    requires TenantTouched(w, LifecycleStep(w, sid, row, target, acked, f).world, a)
    ensures row.At() == a
  {}

  lemma TopupTouchesTenant(w: World, sid: Id, row: Row, t: TopupPhase, f: Fate, a: Addr)
    requires TenantTouched(w, TopupStep(w, sid, row, t, f).world, a)
    ensures row.At() == a
  {}

  lemma RenewTouchesTenant(w: World, sid: Id, row: Row, r: RenewPhase, f: Fate, a: Addr)
    requires TenantTouched(w, RenewStep(w, sid, row, r, f).world, a)
    ensures row.At() == a
  {}

  lemma NextTouchesRow(w: World, pc: Pc, f: Fate, known: iset<Fact>, r: Id)
    requires Remembers(known, pc) && r < w.next && RowTouched(w, Next(w, pc, f).world, r) && Knows(known, w)
    ensures exists x :: x in known && x.sid == r && IsAbout(pc, r, x.customer)
  {
    hide CreateStep, DeleteStep, PurgeStep, ToggleStep, LifecycleStep, TopupStep, RenewStep;
    var x := FactOf(r, w.db.subs[r]);
    assert Holds(w, x);
    match pc
    case Create(c) => CreateTouchesRow(w, c, f, r);
    case Delete(d) => DeleteTouchesRow(w, d, f, r);
    case Purge(c, p) => PurgeTouchesRow(w, c, p, f, r);
    case Toggle(c, enable, t) =>
      ToggleTouchesRow(w, c, enable, t, f, r);
      assert Fact(r, t.listed[r].At(), c) in known;
    case Lifecycle(sid, row, target, acked) => LifecycleTouchesRow(w, sid, row, target, acked, f, r);
    case Topup(sid, row, t) => TopupTouchesItsOwn(w, sid, row, t, f); TopupIsSteady(w, sid, row, t, f);
    case Renew(sid, row, p) => RenewTouchesItsOwn(w, sid, row, p, f); RenewIsSteady(w, sid, row, p, f);
    case _ =>
  }

  lemma CreateTouchesRow(w: World, c: Creating, f: Fate, r: Id)
    requires r < w.next && RowTouched(w, CreateStep(w, c, f).world, r)
    ensures c == Unstore(r)
  {}

  lemma DeleteTouchesRow(w: World, d: Deleting, f: Fate, r: Id)
    requires RowTouched(w, DeleteStep(w, d, f).world, r)
    ensures d.sid == r
  {}

  lemma PurgeTouchesRow(w: World, customer: Id, p: Purging, f: Fate, r: Id)
    requires RowTouched(w, PurgeStep(w, customer, p, f).world, r)
    ensures w.db.subs[r].customer == customer
  {}

  lemma ToggleTouchesRow(w: World, customer: Id, enable: bool, t: Toggling, f: Fate, r: Id)
    requires RowTouched(w, ToggleStep(w, customer, enable, t, f).world, r)
    ensures t.WriteRow? && t.sid == r
  {}

  lemma LifecycleTouchesRow(w: World, sid: Id, row: Row, target: string, acked: bool, f: Fate, r: Id)
    requires RowTouched(w, LifecycleStep(w, sid, row, target, acked, f).world, r)
    ensures sid == r
  {}

  // ---------- the main results ----------

  /** The ids of live tenants have been drawn. */
  lemma TenantsAreOld(clock: int, es: seq<Event>, a: Addr)
    requires a in Run(Fresh(clock), es).w.fleet
    ensures a.tenant < Run(Fresh(clock), es).w.next
  {
    RunIsSound(clock, es);
    hide Run;
  }

  /**
   * Whatever the interleaving: a step changes or removes only a tenant that its create still keeps to
   * itself, or whose row was at some moment that of a subscription which the handler is about.
   */
  lemma StepsTouchTheirOwnTenants(clock: int, es: seq<Event>, tid: Id, f: Fate, a: Addr)
    requires var s := Run(Fresh(clock), es); tid in s.threads && TenantTouched(s.w, Apply(s, Move(tid, f)).w, a)
    ensures var pc := Run(Fresh(clock), es).threads[tid];
      || Secret(pc) == Some(a)
      || exists k, sid :: 0 <= k <= |es| && var subs := Run(Fresh(clock), es[..k]).w.db.subs;
           sid in subs && subs[sid].At() == a && IsAbout(pc, sid, subs[sid].customer)
  {
    var s := Run(Fresh(clock), es);
    var pc, known := s.threads[tid], History(clock, es);
    AllRemember(clock, es);
    TenantsAreOld(clock, es, a);
    RunIsSound(clock, es);
    assert SoundThread(s.w, pc);
    hide Run, Fresh, Next, Remembers, SoundThread, SoundWorld;
    NextTouchesTenant(s.w, pc, f, known, a);
    if Secret(pc) != Some(a) {
      var x :| x in known && x.at == a && IsAbout(pc, x.sid, x.customer);
      var k :| 0 <= k <= |es| && Holds(Run(Fresh(clock), es[..k]).w, x);
      assert x.sid in Run(Fresh(clock), es[..k]).w.db.subs;
    }
  }

  /** And it changes or removes only a row that it is about. */
  lemma StepsTouchTheirOwnRows(clock: int, es: seq<Event>, tid: Id, f: Fate, r: Id)
    requires var s := Run(Fresh(clock), es); tid in s.threads && RowTouched(s.w, Apply(s, Move(tid, f)).w, r)
    ensures var s := Run(Fresh(clock), es); IsAbout(s.threads[tid], r, s.w.db.subs[r].customer)
  {
    var s := Run(Fresh(clock), es);
    var pc, known := s.threads[tid], History(clock, es);
    AllRemember(clock, es);
    HistoryGrows(clock, es, Tick(0));
    RunIsSound(clock, es);
    IdsAreBelowNext(s.w);
    hide Run, Fresh, Next, Remembers, SoundThread, SoundWorld, Knows;
    NextTouchesRow(s.w, pc, f, known, r);
    var x :| x in known && x.sid == r && IsAbout(pc, r, x.customer);
    var k :| 0 <= k <= |es| && Holds(Run(Fresh(clock), es[..k]).w, x);
    CustomersStay(clock, es, k, r);
  }

  /** A row's customer never changes. */
  lemma CustomersStay(clock: int, es: seq<Event>, k: nat, r: Id)
    requires k <= |es| && r in Run(Fresh(clock), es[..k]).w.db.subs && r in Run(Fresh(clock), es).w.db.subs
    ensures Run(Fresh(clock), es[..k]).w.db.subs[r].customer == Run(Fresh(clock), es).w.db.subs[r].customer
  {
    assert es[..|es|] == es;
    RunEvolves(clock, es, k, |es|);
    RunIsSound(clock, es[..k]);
    hide Run;
    IdsAreBelowNext(Run(Fresh(clock), es[..k]).w);
    hide SoundWorld;
  }
}
