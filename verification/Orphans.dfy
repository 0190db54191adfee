/**
 * No stranded tenants: the node-side delete comes first, so a live tenant always has a
 * subscription row that points to it, except for the tenants that the code itself gives up.
 */
module Orphans {
  import opened Domain
  import opened Database
  import opened Protocol
  import opened Structure
  import Scenarios

  // ---------- statements ----------

  ghost predicate Referenced(w: World, a: Addr) {
    exists s :: s in w.db.subs && w.db.subs[s].At() == a
  }

  /** A create has provisioned the tenant and has not stored its row or finished its rollback. */
  ghost predicate InFlight(s: System, a: Addr) {
    exists t :: t in s.threads && Secret(s.threads[t]) == Some(a)
  }

  ghost predicate Accounted(s: System, a: Addr) {
    Referenced(s.w, a) || InFlight(s, a) || a in s.w.book.abandoned || a in s.w.book.lost || a in s.w.book.swept
  }

  /** The tenant is gone from its node and its id will not be drawn again. */
  ghost predicate Gone(w: World, a: Addr) { a !in w.fleet && a.tenant < w.next }

  ghost predicate Settled(w: World, a: Addr) { Gone(w, a) || a in w.book.abandoned }

  /** A thread that is about to remove a row has settled the row's tenant first. */
  ghost predicate Prepared(w: World, pc: Pc) {
    match pc
    case Create(Unstore(sid)) => sid < w.next && (sid in w.db.subs ==> Settled(w, w.db.subs[sid].At()))
    case Delete(DeleteRow(sid, row)) => Gone(w, row.At())
    case Purge(_, Each(listed, done)) => forall s | s in listed && s in done :: Gone(w, listed[s].At())
    case Purge(_, Evict(listed, done, _)) => forall s | s in listed && s in done :: Gone(w, listed[s].At())
    case _ => true
  }

  /** The given-up tenants are truly adrift: no row points to them and no create still holds them. */
  ghost predicate GivenUp(s: System) {
    && (forall a | a in s.w.book.swept :: a in s.w.book.owner && s.w.book.owner[a] !in s.w.db.subs)
    && (forall a | a in s.w.book.lost :: a !in s.w.book.owner && a.tenant < s.w.next)
    && (forall t | t in s.threads && Secret(s.threads[t]).Some? :: Secret(s.threads[t]).value !in s.w.book.lost)
  }

  ghost predicate NoneAdrift(s: System) {
    && Sound(s)
    && (forall a | a in s.w.fleet :: Accounted(s, a))
    && (forall t | t in s.threads :: Prepared(s.w, s.threads[t]))
    && GivenUp(s)
  }

  // ---------- one step ----------

  /** A row leaves only after its tenant, or into the set of swept tenants. */
  lemma RowsLeaveLast(w: World, pc: Pc, f: Fate)
    requires SoundWorld(w) && SoundThread(w, pc) && Prepared(w, pc)
    ensures var w' := Next(w, pc, f).world;
      forall s | s in w.db.subs && s !in w'.db.subs :: Settled(w', w.db.subs[s].At()) || w.db.subs[s].At() !in w'.fleet
                                                       || w.db.subs[s].At() in w'.book.swept
  {
    var w' := Next(w, pc, f).world;
    hide ToggleStep, LifecycleStep, TopupStep, RenewStep;
    if pc.Create? && pc.creating.Unstore? {
      hide DeleteStep, PurgeStep;
    } else if pc.Delete? && pc.deleting.DeleteRow? {
      hide CreateStep, PurgeStep;
    } else if pc.Purge? && pc.purging.Each? {
      hide CreateStep, DeleteStep;
    } else {
      RowsStay(w, pc, f);
      hide Next;
    }
  }

  lemma RowsStay(w: World, pc: Pc, f: Fate)
    requires !(pc.Create? && pc.creating.Unstore?)
    requires !(pc.Delete? && pc.deleting.DeleteRow?) && !(pc.Purge? && pc.purging.Each?)
    ensures forall s | s in w.db.subs :: s in Next(w, pc, f).world.db.subs
  {
    if !Comes(pc) { NextIsSteady(w, pc, f); hide Next; }
  }

  /** Tenants appear only at a provisioning call. */
  lemma TenantsAppear(w: World, pc: Pc, f: Fate)
    ensures var o := Next(w, pc, f);
      forall a | a in o.world.fleet && a !in w.fleet ::
          a in o.world.book.lost || (o.pc.Some? && Secret(o.pc.value) == Some(a))
  {
    hide TopupStep, RenewStep, ToggleStep, LifecycleStep;
    if pc.Create? { hide DeleteStep, PurgeStep; }
    else if Comes(pc) { hide CreateStep; }
    else { NextIsSteady(w, pc, f); hide Next; }
  }

  /** A create lets go of its tenant only by storing it, deleting it or giving up on it. */
  lemma SecretsResolve(w: World, pc: Pc, f: Fate)
    requires Secret(pc).Some?
    ensures var o := Next(w, pc, f); var a := Secret(pc).value;
      a in o.world.fleet
      ==> Referenced(o.world, a) || (o.pc.Some? && Secret(o.pc.value) == Some(a)) || a in o.world.book.abandoned
  {
    var o := Next(w, pc, f);
    var a := Secret(pc).value;
    if pc.creating.Insert? && f.db && w.db.CanInsert(pc.creating.row) {
      assert o.world.db.subs[w.next].At() == a;
    }
  }

  lemma NextPrepares(w: World, pc: Pc, f: Fate)
    requires SoundWorld(w) && SoundThread(w, pc) && Prepared(w, pc)
    ensures var o := Next(w, pc, f); o.pc.Some? ==> Prepared(o.world, o.pc.value)
  {
    hide CreateStep, PurgeStep, ToggleStep, LifecycleStep, TopupStep, RenewStep;
    match pc
    case Create(c) => CreatePrepares(w, c, f);
    case Delete(d) => assert d.ReadSub? ==> (d.sid in w.db.subs ==> SoundRow(w, d.sid, w.db.subs[d.sid]));
    case Purge(c, p) => PurgePrepares(w, c, p, f);
    case _ => NextIsSteady(w, pc, f);
  }

  lemma CreatePrepares(w: World, c: Creating, f: Fate)
    requires SoundWorld(w) && SoundCreating(w, c)
    ensures var o := CreateStep(w, c, f); o.pc.Some? ==> Prepared(o.world, o.pc.value)
  {}

  lemma PurgePrepares(w: World, customer: Id, p: Purging, f: Fate)
    requires SoundWorld(w) && SoundThread(w, Purge(customer, p)) && Prepared(w, Purge(customer, p))
    ensures var o := PurgeStep(w, customer, p, f); o.pc.Some? ==> Prepared(o.world, o.pc.value)
  {
    if p.Each? {
      forall s | s in p.listed ensures p.listed[s].tenant != 0 { assert Snapshot(w, s, p.listed[s]); }
    } else if p.Evict? {
      forall s | s in p.listed ensures p.listed[s].tenant < w.next { assert Snapshot(w, s, p.listed[s]); }
    }
  }

  lemma PreparedIsStable(w: World, w': World, pc: Pc)
    requires Prepared(w, pc) && Evolves(w, w')
    ensures Prepared(w', pc)
  {}

  // ---------- every event ----------

  lemma MoveAccounts(s: System, tid: Id, f: Fate)
    requires NoneAdrift(s) && tid in s.threads
    ensures forall a | a in Apply(s, Move(tid, f)).w.fleet :: Accounted(Apply(s, Move(tid, f)), a)
  {
    hide SoundWorld, SoundThread, Prepared, GivenUp, Accounted, Next, Referenced, InFlight;
    var s' := Apply(s, Move(tid, f));
    forall a | a in s'.w.fleet ensures Accounted(s', a) {
      if Referenced(s.w, a) {
        RowsLeaveLast(s.w, s.threads[tid], f);
        NextKeeps(s.w, s.threads[tid], f);
        ReferenceIsAccounted(s, s', a);
      } else {
        TenantIsAccounted(s, tid, f, a);
      }
    }
  }

  /** A live tenant without a row stays with its create, or is stored or given up by it. */
  lemma TenantIsAccounted(s: System, tid: Id, f: Fate, a: Addr)
    requires NoneAdrift(s) && tid in s.threads && !Referenced(s.w, a) && a in Apply(s, Move(tid, f)).w.fleet
    ensures Accounted(Apply(s, Move(tid, f)), a)
  {
    hide SoundWorld, SoundThread, Prepared, GivenUp, Next, Referenced;
    var s' := Apply(s, Move(tid, f));
    var pc := s.threads[tid];
    if a !in s.w.fleet {
      TenantsAppear(s.w, pc, f);
      if a !in s'.w.book.lost { assert Secret(s'.threads[tid]) == Some(a); }
    } else if InFlight(s, a) {
      var t :| t in s.threads && Secret(s.threads[t]) == Some(a);
      if t == tid { ReleaseIsAccounted(s, tid, f, a); } else { assert Secret(s'.threads[t]) == Some(a); }
    } else {
      NextKeeps(s.w, pc, f);
    }
  }

  lemma ReleaseIsAccounted(s: System, tid: Id, f: Fate, a: Addr)
    requires tid in s.threads && Secret(s.threads[tid]) == Some(a) && a in Apply(s, Move(tid, f)).w.fleet
    ensures Accounted(Apply(s, Move(tid, f)), a)
  {
    hide Next, Referenced;
    var s' := Apply(s, Move(tid, f));
    SecretsResolve(s.w, s.threads[tid], f);
    if !Referenced(s'.w, a) && a !in s'.w.book.abandoned { assert Secret(s'.threads[tid]) == Some(a); }
  }

  /** Where a row that a live tenant had is gone, the tenant has been given up. */
  lemma ReferenceIsAccounted(s: System, s': System, a: Addr)
    requires SoundWorld(s.w) && Evolves(s.w, s'.w) && Referenced(s.w, a) && a in s'.w.fleet
    requires forall r | r in s.w.db.subs && r !in s'.w.db.subs ::
      Settled(s'.w, s.w.db.subs[r].At()) || s.w.db.subs[r].At() !in s'.w.fleet || s.w.db.subs[r].At() in s'.w.book.swept
    ensures Accounted(s', a)
  {
    var r :| r in s.w.db.subs && s.w.db.subs[r].At() == a;
    IdsAreBelowNext(s.w);
    hide SoundWorld, InFlight;
    if r in s'.w.db.subs { assert s'.w.db.subs[r].At() == a; }
  }

  lemma MoveKeepsGivenUp(s: System, tid: Id, f: Fate)
    requires NoneAdrift(s) && tid in s.threads
    ensures GivenUp(Apply(s, Move(tid, f)))
  {
    var s' := Apply(s, Move(tid, f));
    var pc := s.threads[tid];
    NextKeeps(s.w, pc, f);
    NextGivesUp(s.w, pc, f);
    hide Next, SoundThread, Prepared, Referenced, InFlight, Accounted;
    forall a | a in s'.w.book.swept ensures a in s'.w.book.owner && s'.w.book.owner[a] !in s'.w.db.subs {}
    forall a | a in s'.w.book.lost ensures a !in s'.w.book.owner && a.tenant < s'.w.next {}
    forall t | t in s'.threads && Secret(s'.threads[t]).Some? ensures Secret(s'.threads[t]).value !in s'.w.book.lost {
      SecretsAreOld(s, t);
    }
  }

  /** What one step adds to the given-up tenants. */
  lemma NextGivesUp(w: World, pc: Pc, f: Fate)
    requires SoundWorld(w) && SoundThread(w, pc)
    ensures var o := Next(w, pc, f);
      && (forall a | a in o.world.book.swept && a !in w.book.swept ::
         a in o.world.book.owner && o.world.book.owner[a] !in o.world.db.subs)
      && (forall a | a in o.world.book.lost && a !in w.book.lost ::
            a !in o.world.book.owner && w.next == a.tenant < o.world.next && (o.pc.Some? ==> Secret(o.pc.value).None?))
      && (forall a | a in o.world.book.owner && a !in w.book.owner :: Secret(pc) == Some(a))
      && (o.pc.Some? && Secret(o.pc.value).Some?
         ==> Secret(o.pc.value) == Secret(pc) || Secret(o.pc.value).value.tenant == w.next)
  {
    NextIsDiscreet(w, pc, f);
    if !Comes(pc) {
      NextIsSteady(w, pc, f);
      hide Next;
    } else if pc.Create? {
      hide DeleteStep, PurgeStep, ToggleStep, LifecycleStep, TopupStep, RenewStep, Discreet;
      CreateGivesUp(w, pc.creating, f);
    } else {
      hide CreateStep, ToggleStep, LifecycleStep, TopupStep, RenewStep;
    }
  }

  lemma CreateGivesUp(w: World, c: Creating, f: Fate)
    requires SoundWorld(w) && SoundThread(w, Create(c))
    ensures var o := CreateStep(w, c, f);
      && o.world.book.swept == w.book.swept
      && (forall a | a in o.world.book.lost && a !in w.book.lost ::
            a !in o.world.book.owner && w.next == a.tenant < o.world.next && o.pc.None?)
      && (forall a | a in o.world.book.owner && a !in w.book.owner :: Secret(Create(c)) == Some(a))
      && (o.pc.Some? && Secret(o.pc.value).Some?
         ==> Secret(o.pc.value) == Secret(Create(c)) || Secret(o.pc.value).value.tenant == w.next)
  {
    if c.CallCreate? {
      ProvisionGivesUp(w, c.draft, f);
      hide Provision;
    }
    hide SoundWorld, SoundThread;
  }

  lemma ProvisionGivesUp(w: World, draft: Row, f: Fate)
    requires SoundWorld(w)
    ensures var o := Provision(w, draft, f);
      && o.world.book.swept == w.book.swept && o.world.book.owner == w.book.owner
      && (forall a | a in o.world.book.lost && a !in w.book.lost ::
            a !in o.world.book.owner && w.next == a.tenant < o.world.next && o.pc.None?)
      && (o.pc.Some? && Secret(o.pc.value).Some? ==> Secret(o.pc.value).value.tenant == w.next)
  {}

  lemma {:induction false} ApplyAccounts(s: System, e: Event)
    requires NoneAdrift(s)
    ensures NoneAdrift(Apply(s, e))
  {
    var s' := Apply(s, e);
    ApplyKeeps(s, e);
    if e.Move? && e.tid in s.threads {
      var o := Next(s.w, s.threads[e.tid], e.fate);
      MoveAccounts(s, e.tid, e.fate);
      MoveKeepsGivenUp(s, e.tid, e.fate);
      NextPrepares(s.w, s.threads[e.tid], e.fate);
      hide Next, Accounted, GivenUp, SoundWorld, SoundThread;
      forall t | t in s'.threads ensures Prepared(s'.w, s'.threads[t]) {
        if t != e.tid { PreparedIsStable(s.w, s'.w, s.threads[t]); }
      }
    } else {
      QuietEvent(s, e);
    }
  }

  /** Events other than a thread's step add no tenant, remove no row and resolve nothing. */
  lemma QuietEvent(s: System, e: Event)
    requires NoneAdrift(s) && (e.Move? ==> e.tid !in s.threads)
    ensures var s' := Apply(s, e);
      && (forall a | a in s'.w.fleet :: Accounted(s', a))
      && (forall t | t in s'.threads :: Prepared(s'.w, s'.threads[t]))
      && GivenUp(s')
  {
    hide Apply, Sound, Accounted, Evolves, Prepared;
    var s' := Apply(s, e);
    ApplyKeeps(s, e);
    QuietIsSteady(s, e);
    forall a | a in s'.w.fleet ensures Accounted(s', a) {
      assert Accounted(s, a);
      QuietAccounts(s, e, a);
    }
    forall t | t in s'.threads ensures Prepared(s'.w, s'.threads[t]) {
      if t in s.threads { QuietPrepared(s, s', t); } else { RequestIsPrepared(s'.w, s'.threads[t]); }
    }
    QuietGivenUp(s, s');
  }

  lemma QuietGivenUp(s: System, s': System)
    requires GivenUp(s) && Evolves(s.w, s'.w) && Steady(s.w, s'.w)
    requires forall t | t in s'.threads ::
             if t in s.threads then s'.threads[t] == s.threads[t] else IsRequest(s'.threads[t])
    ensures GivenUp(s')
  {}

  lemma RequestIsPrepared(w: World, pc: Pc)
    requires IsRequest(pc)
    ensures Prepared(w, pc)
  {}

  lemma QuietPrepared(s: System, s': System, t: Id)
    requires Sound(s) && Evolves(s.w, s'.w) && Steady(s.w, s'.w) && t in s.threads && Prepared(s.w, s.threads[t])
    ensures Prepared(s'.w, s.threads[t])
  {
    PreparedIsStable(s.w, s'.w, s.threads[t]);
  }

  lemma QuietAccounts(s: System, e: Event, a: Addr)
    requires Sound(s) && (e.Move? ==> e.tid !in s.threads) && Accounted(s, a)
    ensures Accounted(Apply(s, e), a)
  {
    hide Apply, SoundThread, SoundRow, SoundWorld;
    var s' := Apply(s, e);
    ApplyKeeps(s, e);
    QuietIsSteady(s, e);
    if Referenced(s.w, a) {
      ReferenceStays(s.w, s'.w, a);
    } else if InFlight(s, a) {
      hide Evolves, Referenced;
      var t :| t in s.threads && Secret(s.threads[t]) == Some(a);
      assert s'.threads[t] == s.threads[t];
    } else {
      hide Referenced, InFlight;
    }
  }

  lemma ReferenceStays(w: World, w': World, a: Addr)
    requires SoundWorld(w) && Evolves(w, w') && Steady(w, w') && Referenced(w, a)
    ensures Referenced(w', a)
  {
    var r :| r in w.db.subs && w.db.subs[r].At() == a;
    IdsAreBelowNext(w);
    assert w'.db.subs[r].At() == a;
  }

  lemma {:induction false} RunAccounts(clock: int, es: seq<Event>)
    ensures NoneAdrift(Run(Fresh(clock), es))
  {
    if es != [] {
      RunAccounts(clock, es[..|es| - 1]);
      ApplyAccounts(Run(Fresh(clock), es[..|es| - 1]), es[|es| - 1]);
    }
  }

  // ---------- abandoned tenants ----------

  ghost predicate Unstoring(s: System, sid: Id) {
    exists t :: t in s.threads && s.threads[t] == Create(Unstore(sid))
  }

  /** No two tenants were stored for the same subscription. */
  ghost predicate OwnersDiffer(w: World) {
    forall a, b | a in w.book.owner && b in w.book.owner && w.book.owner[a] == w.book.owner[b] :: a == b
  }

  /** A step stores a subscription for one tenant at most, under a fresh id. */
  ghost predicate NamesFresh(w: World, w': World) {
    && (forall a | a in w'.book.owner ::
       if a in w.book.owner then w'.book.owner[a] == w.book.owner[a] else w'.book.owner[a] == w.next)
    && (forall a, b | a in w'.book.owner && a !in w.book.owner && b in w'.book.owner && b !in w.book.owner :: a == b)
  }

  lemma NextNamesFresh(w: World, pc: Pc, f: Fate)
    requires SoundThread(w, pc)
    ensures NamesFresh(w, Next(w, pc, f).world)
  {
    if pc.Create? {
      CreateNamesFresh(w, pc.creating, f);
      hide CreateStep;
    } else if !Comes(pc) {
      NextIsSteady(w, pc, f);
      hide Next;
    }
  }

  lemma CreateNamesFresh(w: World, c: Creating, f: Fate)
    requires SoundThread(w, Create(c))
    ensures NamesFresh(w, CreateStep(w, c, f).world)
  {}

  lemma {:induction false} RunNamesOwners(clock: int, es: seq<Event>)
    ensures OwnersDiffer(Run(Fresh(clock), es).w)
  {
    if es != [] {
      var init, e := es[..|es| - 1], es[|es| - 1];
      RunNamesOwners(clock, init);
      RunIsSound(clock, init);
      var s := Run(Fresh(clock), init);
      if e.Move? && e.tid in s.threads {
        assert SoundThread(s.w, s.threads[e.tid]);
        NextNamesFresh(s.w, s.threads[e.tid], e.fate);
        hide Next;
      } else {
        QuietIsSteady(s, e);
        hide Apply;
      }
    }
  }

  /** No create still holds an abandoned tenant, and its row is left only by a rollback that goes on or failed. */
  ghost predicate Leftovers(s: System) {
    && (forall a | a in s.w.book.abandoned :: a.tenant < s.w.next)
    && (forall t | t in s.threads && Secret(s.threads[t]).Some? :: Secret(s.threads[t]).value !in s.w.book.abandoned)
    && (forall a | a in s.w.book.abandoned && a in s.w.book.owner && s.w.book.owner[a] in s.w.db.subs ::
          s.w.book.owner[a] in s.w.book.kept || Unstoring(s, s.w.book.owner[a]))
  }

  /** What a step does to abandoned tenants and their rows. */
  ghost predicate Abandons(w: World, pc: Pc, o: Outcome) {
    && w.book.kept <= o.world.book.kept
    && (forall a | a in o.world.book.abandoned && a !in w.book.abandoned ::
          pc.Create? && pc.creating.Undo? && a == pc.creating.row.At() && o.world.book.owner == w.book.owner
          && o.pc == if pc.creating.stored.Some? then Some(Create(Unstore(pc.creating.stored.value))) else None)
    && (pc.Create? && pc.creating.Unstore?
       ==> pc.creating.sid !in o.world.db.subs || pc.creating.sid in o.world.book.kept)
  }

  lemma NextAbandons(w: World, pc: Pc, f: Fate)
    ensures Abandons(w, pc, Next(w, pc, f))
  {
    if pc.Create? {
      CreateAbandons(w, pc.creating, f);
      hide CreateStep;
    } else if !Comes(pc) {
      NextIsSteady(w, pc, f);
      OthersKeepNone(w, pc, f);
      hide Next;
    }
  }

  lemma CreateAbandons(w: World, c: Creating, f: Fate)
    ensures Abandons(w, Create(c), CreateStep(w, c, f))
  {}

  lemma OthersKeepNone(w: World, pc: Pc, f: Fate)
    requires !Comes(pc)
    ensures Next(w, pc, f).world.book.kept == w.book.kept
  {
    if pc.Topup? { TopupKeepsNone(w, pc.sid, pc.row, pc.topup, f); hide TopupStep; }
    else if pc.Toggle? { ToggleKeepsNone(w, pc.customer, pc.enable, pc.toggling, f); hide ToggleStep; }
  }

  lemma TopupKeepsNone(w: World, sid: Id, row: Row, t: TopupPhase, f: Fate)
    ensures TopupStep(w, sid, row, t, f).world.book.kept == w.book.kept
  {}

  lemma ToggleKeepsNone(w: World, customer: Id, enable: bool, t: Toggling, f: Fate)
    ensures ToggleStep(w, customer, enable, t, f).world.book.kept == w.book.kept
  {}

  lemma MoveLeavesOver(s: System, tid: Id, f: Fate)
    requires Sound(s) && Leftovers(s) && tid in s.threads
    ensures Leftovers(Apply(s, Move(tid, f)))
  {
    var s' := Apply(s, Move(tid, f));
    var pc := s.threads[tid];
    var o := Next(s.w, pc, f);
    ApplyKeeps(s, Move(tid, f));
    NextAbandons(s.w, pc, f);
    NextIsDiscreet(s.w, pc, f);
    assert SoundThread(s.w, pc);
    hide Next, SoundWorld, SoundRow;
    forall t | t in s.threads ensures SoundThread(s.w, s.threads[t]) {}
    SecretsStayKept(s, tid, o, s');
    hide SoundThread;
    forall a | a in s'.w.book.abandoned && a in s'.w.book.owner && s'.w.book.owner[a] in s'.w.db.subs
      ensures s'.w.book.owner[a] in s'.w.book.kept || Unstoring(s', s'.w.book.owner[a])
    {
      RowIsLeftOver(s, tid, o, s', a);
    }
  }

  lemma SecretsStayKept(s: System, tid: Id, o: Outcome, s': System)
    requires Sound(s) && Leftovers(s) && tid in s.threads && Evolves(s.w, s'.w)
    requires Abandons(s.w, s.threads[tid], o) && Discreet(s.w, s.threads[tid], o)
    requires s' == System(o.world, if o.pc.Some? then s.threads[tid := o.pc.value] else s.threads - {tid})
    ensures forall a | a in s'.w.book.abandoned :: a.tenant < s'.w.next
    ensures forall t | t in s'.threads && Secret(s'.threads[t]).Some? ::
            Secret(s'.threads[t]).value !in s'.w.book.abandoned
  {
    assert SoundThread(s.w, s.threads[tid]);
    hide SoundWorld, SoundRow;
    forall t | t in s'.threads && Secret(s'.threads[t]).Some?
      ensures Secret(s'.threads[t]).value !in s'.w.book.abandoned
    {
      if t != tid { assert SoundThread(s.w, s.threads[t]); }
    }
  }

  lemma RowIsLeftOver(s: System, tid: Id, o: Outcome, s': System, a: Addr)
    requires Sound(s) && Leftovers(s) && tid in s.threads && Evolves(s.w, s'.w)
    requires Abandons(s.w, s.threads[tid], o) && Discreet(s.w, s.threads[tid], o)
    requires s' == System(o.world, if o.pc.Some? then s.threads[tid := o.pc.value] else s.threads - {tid})
    requires a in s'.w.book.abandoned && a in s'.w.book.owner && s'.w.book.owner[a] in s'.w.db.subs
    ensures s'.w.book.owner[a] in s'.w.book.kept || Unstoring(s', s'.w.book.owner[a])
  {
    var sid := s'.w.book.owner[a];
    if a in s.w.book.abandoned {
      OldRowIsLeftOver(s, tid, o, s', a);
    } else {
      UndoneRowIsNamed(s, tid);
      hide Sound, Evolves, Leftovers;
      assert s'.threads[tid] == Create(Unstore(sid));
    }
  }

  lemma OldRowIsLeftOver(s: System, tid: Id, o: Outcome, s': System, a: Addr)
    requires Sound(s) && Leftovers(s) && tid in s.threads && Evolves(s.w, s'.w)
    requires Abandons(s.w, s.threads[tid], o) && Discreet(s.w, s.threads[tid], o)
    requires s' == System(o.world, if o.pc.Some? then s.threads[tid := o.pc.value] else s.threads - {tid})
    requires a in s.w.book.abandoned && a in s'.w.book.owner && s'.w.book.owner[a] in s'.w.db.subs
    ensures s'.w.book.owner[a] in s'.w.book.kept || Unstoring(s', s'.w.book.owner[a])
  {
    var sid := s'.w.book.owner[a];
    RowWasReferenced(s, tid, o, a);
    assert sid in s.w.book.kept || Unstoring(s, sid);
    hide Sound, Evolves, Discreet, Leftovers, Unstoring;
    if sid !in s.w.book.kept { UnstoringGoesOn(s, tid, o, s', sid); }
  }

  /** A removal that is under way goes on, or has removed the row, or has failed to. */
  lemma UnstoringGoesOn(s: System, tid: Id, o: Outcome, s': System, sid: Id)
    requires tid in s.threads && Abandons(s.w, s.threads[tid], o) && Unstoring(s, sid)
    requires s' == System(o.world, if o.pc.Some? then s.threads[tid := o.pc.value] else s.threads - {tid})
    ensures sid !in s'.w.db.subs || sid in s'.w.book.kept || Unstoring(s', sid)
  {
    var t :| t in s.threads && s.threads[t] == Create(Unstore(sid));
    if t != tid { assert s'.threads[t] == Create(Unstore(sid)); }
  }

  lemma RowWasReferenced(s: System, tid: Id, o: Outcome, a: Addr)
    requires Sound(s) && Leftovers(s) && tid in s.threads && Evolves(s.w, o.world)
    requires Discreet(s.w, s.threads[tid], o)
    requires a in s.w.book.abandoned && a in o.world.book.owner && o.world.book.owner[a] in o.world.db.subs
    ensures a in s.w.book.owner && s.w.book.owner[a] == o.world.book.owner[a] && s.w.book.owner[a] in s.w.db.subs
  {
    OwnersAreOld(s.w);
    hide Sound;
  }

  lemma OwnersAreOld(w: World)
    requires SoundWorld(w)
    ensures forall a | a in w.book.owner :: w.book.owner[a] < w.next
  {}

  /** A rollback that is to remove a row as well removes that of its own tenant. */
  lemma UndoneRowIsNamed(s: System, tid: Id)
    requires Sound(s) && tid in s.threads && s.threads[tid].Create? && s.threads[tid].creating.Undo?
    ensures var c := s.threads[tid].creating;
      c.row.At() in s.w.book.owner ==> c.stored == Some(s.w.book.owner[c.row.At()])
  {
    assert SoundThread(s.w, s.threads[tid]);
  }

  lemma QuietLeavesOver(s: System, e: Event)
    requires Sound(s) && Leftovers(s) && (e.Move? ==> e.tid !in s.threads)
    ensures Leftovers(Apply(s, e))
  {
    hide Apply, Sound;
    var s' := Apply(s, e);
    ApplyKeeps(s, e);
    QuietIsSteady(s, e);
    QuietKeepsNone(s, e);
    assert s.w.next <= s'.w.next;
    hide Evolves;
    forall sid | Unstoring(s, sid) ensures Unstoring(s', sid) {
      var t :| t in s.threads && s.threads[t] == Create(Unstore(sid));
      assert s'.threads[t] == Create(Unstore(sid));
    }
    hide Unstoring;
  }

  lemma QuietKeepsNone(s: System, e: Event)
    requires e.Move? ==> e.tid !in s.threads
    ensures Apply(s, e).w.book.kept == s.w.book.kept
  {
    hide Next, Notices;
  }

  lemma {:induction false} RunLeavesOver(clock: int, es: seq<Event>)
    ensures Leftovers(Run(Fresh(clock), es))
  {
    if es != [] {
      var init, e := es[..|es| - 1], es[|es| - 1];
      RunLeavesOver(clock, init);
      RunIsSound(clock, init);
      var s := Run(Fresh(clock), init);
      hide Sound, Leftovers;
      if e.Move? && e.tid in s.threads { MoveLeavesOver(s, e.tid, e.fate); } else { QuietLeavesOver(s, e); }
      hide Apply;
    }
  }

  // ---------- the main results ----------

  /**
   * In every reachable state, whatever interleaves and whatever fails, a live tenant has a row
   * on a node that the panel still knows, or its create is still running, or it was given up.
   */
  lemma NoTenantIsStranded(clock: int, es: seq<Event>, a: Addr)
    requires a in Run(Fresh(clock), es).w.fleet
    ensures var s := Run(Fresh(clock), es);
      && Accounted(s, a)
      && (Referenced(s.w, a) ==> a.node in s.w.db.nodes)
  {
    RunAccounts(clock, es);
  }

  /**
   * The given-up sets are exact: a live tenant is adrift exactly when its create was lost, or a
   * customer cascade swept its row away, or its rollback delete reported an error and its row was
   * never stored or has been removed.
   */
  lemma AdriftExactlyWhenGivenUp(clock: int, es: seq<Event>, a: Addr)
    requires a in Run(Fresh(clock), es).w.fleet
    ensures var s := Run(Fresh(clock), es); var book := s.w.book;
      !(Referenced(s.w, a) || InFlight(s, a))
      <==> a in book.lost || a in book.swept
           || (a in book.abandoned && !(a in book.owner && book.owner[a] in s.w.db.subs))
  {
    var s := Run(Fresh(clock), es);
    RunAccounts(clock, es);
    RunLeavesOver(clock, es);
    assert Accounted(s, a);
    RunNamesOwners(clock, es);
    OwnerIsReferenced(s.w, a);
    if InFlight(s, a) { SecretIsUnowned(s, a); }
    hide Sound, Prepared, Referenced, InFlight;
  }

  /** A tenant is referenced exactly when the subscription stored for it is still there. */
  lemma OwnerIsReferenced(w: World, a: Addr)
    requires SoundWorld(w) && OwnersDiffer(w)
    ensures Referenced(w, a) <==> a in w.book.owner && w.book.owner[a] in w.db.subs
  {
    if Referenced(w, a) {
      var r :| r in w.db.subs && w.db.subs[r].At() == a;
      assert SoundRow(w, r, w.db.subs[r]);
    }
    if a in w.book.owner && w.book.owner[a] in w.db.subs {
      assert SoundRow(w, w.book.owner[a], w.db.subs[w.book.owner[a]]);
    }
  }

  lemma SecretIsUnowned(s: System, a: Addr)
    requires NoneAdrift(s) && Leftovers(s) && InFlight(s, a)
    ensures a !in s.w.book.owner && a !in s.w.book.lost && a !in s.w.book.swept && a !in s.w.book.abandoned
  {
    var t :| t in s.threads && Secret(s.threads[t]) == Some(a);
    assert SoundThread(s.w, s.threads[t]);
    hide SoundWorld, Prepared, Accounted;
  }

  /** An abandoned tenant still has its row only while its rollback goes on, or if that failed to remove the row. */
  lemma AbandonedKeepsItsRow(clock: int, es: seq<Event>, a: Addr)
    requires a in Run(Fresh(clock), es).w.book.abandoned && Referenced(Run(Fresh(clock), es).w, a)
    ensures var s := Run(Fresh(clock), es); var book := s.w.book;
      a in book.owner && (book.owner[a] in book.kept || Unstoring(s, book.owner[a]))
  {
    var s := Run(Fresh(clock), es);
    RunIsSound(clock, es);
    RunLeavesOver(clock, es);
    RunNamesOwners(clock, es);
    OwnerIsReferenced(s.w, a);
  }

  /** deleteCustomer sweeps away exactly the live tenants whose rows its listing did not show. */
  lemma CascadeSweepsLateRows(clock: int, es: seq<Event>, tid: Id, f: Fate, a: Addr)
    requires var s := Run(Fresh(clock), es); tid in s.threads && s.threads[tid].Purge? && s.threads[tid].purging.Each?
    requires var s := Run(Fresh(clock), es); s.threads[tid].purging.listed.Keys <= s.threads[tid].purging.done
    requires var s := Run(Fresh(clock), es); f.db && s.threads[tid].customer in s.w.db.customers
    ensures var s := Run(Fresh(clock), es); var s' := Apply(s, Move(tid, f)); var pc := s.threads[tid];
      a in s'.w.book.swept && a !in s.w.book.swept
      <==> a in s.w.fleet && exists r :: r in s.w.db.subs && r !in pc.purging.listed
                                         && s.w.db.subs[r].customer == pc.customer && s.w.db.subs[r].At() == a
  {
    var s := Run(Fresh(clock), es);
    var pc := s.threads[tid];
    RunAccounts(clock, es);
    assert Prepared(s.w, pc) && SoundThread(s.w, pc);
    if a in s.w.book.swept {
      forall r | r in s.w.db.subs ensures s.w.db.subs[r].At() != a { assert SoundRow(s.w, r, s.w.db.subs[r]); }
    }
    forall r | r in s.w.db.subs && r in pc.purging.listed ensures s.w.db.subs[r].At() !in s.w.fleet {
      assert Snapshot(s.w, r, pc.purging.listed[r]);
    }
  }

  // ---------- when nothing is swept ----------

  /** deleteCustomer has listed the customer's rows and has not finished. */
  ghost predicate Purging(s: System, customer: Id) {
    exists t :: t in s.threads && s.threads[t].Purge? && s.threads[t].customer == customer
        && !s.threads[t].purging.ListAll?
  }

  /** No create stores its row for a customer that is being deleted at that moment. */
  ghost predicate Unraced(s: System, e: Event) {
    e.Move? && e.tid in s.threads && s.threads[e.tid].Create? && s.threads[e.tid].creating.Insert?
    ==> !Purging(s, s.threads[e.tid].creating.row.customer)
  }

  ghost predicate UnracedRun(s: System, es: seq<Event>) {
    forall k | 0 <= k < |es| :: Unraced(Run(s, es[..k]), es[k])
  }

  /** Every row of a customer under deletion was on the listing. */
  ghost predicate Listed(w: World, pc: Pc) {
    pc.Purge? && !pc.purging.ListAll? ==>
      forall r | r in w.db.subs && w.db.subs[r].customer == pc.customer :: r in pc.purging.listed
  }

  lemma ListedIsStable(s: System, e: Event, pc: Pc)
    requires Sound(s) && Listed(s.w, pc) && Unraced(s, e)
    requires pc.Purge? && !pc.purging.ListAll? ==> Purging(s, pc.customer)
    ensures Listed(Apply(s, e).w, pc)
  {
    hide SoundWorld, SoundThread;
    ApplyKeeps(s, e);
    IdsAreBelowNext(s.w);
    if e.Move? && e.tid in s.threads {
      RowsArrive(s.w, s.threads[e.tid], e.fate);
      hide Next;
    } else {
      QuietIsSteady(s, e);
      hide Apply;
    }
  }

  /** Rows are stored only by a create's insert. */
  lemma RowsArrive(w: World, pc: Pc, f: Fate)
    ensures var w' := Next(w, pc, f).world;
      forall r | r in w'.db.subs && r !in w.db.subs ::
        pc.Create? && pc.creating.Insert? && w'.db.subs[r].customer == pc.creating.row.customer
  {
    if !Comes(pc) { NextIsSteady(w, pc, f); hide Next; }
  }

  lemma NextLists(w: World, pc: Pc, f: Fate)
    requires Listed(w, pc)
    ensures var o := Next(w, pc, f); o.pc.Some? ==> Listed(o.world, o.pc.value)
  {
    if !Comes(pc) { NextIsSteady(w, pc, f); hide Next; }
  }

  lemma ApplyLists(s: System, e: Event)
    requires NoneAdrift(s) && Unraced(s, e)
    requires forall t | t in s.threads :: Listed(s.w, s.threads[t])
    ensures var s' := Apply(s, e); forall t | t in s'.threads :: Listed(s'.w, s'.threads[t])
  {
    var s' := Apply(s, e);
    if e.Move? && e.tid in s.threads { NextLists(s.w, s.threads[e.tid], e.fate); } else { QuietIsSteady(s, e); }
    hide Next, Unraced, SoundThread, Prepared;
    forall t | t in s'.threads ensures Listed(s'.w, s'.threads[t]) {
      if t in s.threads && !(e.Move? && e.tid == t) { ListedIsStable(s, e, s.threads[t]); }
    }
  }

  /** A purge that has seen every row of its customer finds their tenants gone. */
  lemma FinishedPurgeStrandsNone(w: World, customer: Id, listed: map<Id, Row>, done: set<Id>)
    requires SoundThread(w, Purge(customer, Each(listed, done))) && Prepared(w, Purge(customer, Each(listed, done)))
    requires Listed(w, Purge(customer, Each(listed, done))) && listed.Keys <= done
    ensures Stranded(w, customer) == {}
  {
    forall r | r in w.db.subs && w.db.subs[r].customer == customer ensures w.db.subs[r].At() !in w.fleet {
      assert Snapshot(w, r, listed[r]);
    }
  }

  lemma MoveSweepsNothing(w: World, pc: Pc, f: Fate)
    requires SoundThread(w, pc) && Prepared(w, pc) && Listed(w, pc) && w.book.swept == {}
    ensures Next(w, pc, f).world.book.swept == {}
  {
    if pc.Purge? && pc.purging.Each? && pc.purging.listed.Keys <= pc.purging.done {
      FinishedPurgeStrandsNone(w, pc.customer, pc.purging.listed, pc.purging.done);
      hide Stranded, SoundThread, Prepared, Listed;
    } else if !Comes(pc) {
      NextIsSteady(w, pc, f);
      hide Next;
    }
  }

  lemma ApplySweepsNothing(s: System, e: Event)
    requires NoneAdrift(s) && s.w.book.swept == {}
    requires forall t | t in s.threads :: Listed(s.w, s.threads[t])
    ensures Apply(s, e).w.book.swept == {}
  {
    if e.Move? && e.tid in s.threads {
      var pc := s.threads[e.tid];
      assert Prepared(s.w, pc) && Listed(s.w, pc) && SoundThread(s.w, pc);
      hide NoneAdrift, SoundThread, Prepared, Listed;
      MoveSweepsNothing(s.w, pc, e.fate);
      hide Next;
    } else {
      QuietIsSteady(s, e);
      hide Apply, NoneAdrift;
    }
  }

  /** Without that race no cascade ever strands a tenant. */
  lemma {:induction false} UnracedRunsSweepNothing(clock: int, es: seq<Event>)
    requires UnracedRun(Fresh(clock), es)
    ensures var s := Run(Fresh(clock), es);
      s.w.book.swept == {} && (forall t | t in s.threads :: Listed(s.w, s.threads[t]))
  {
    if es != [] {
      var init := es[..|es| - 1];
      assert forall k | 0 <= k < |init| :: init[..k] == es[..k];
      UnracedRunsSweepNothing(clock, init);
      RunAccounts(clock, init);
      var s := Run(Fresh(clock), init);
      assert Unraced(s, es[|es| - 1]);
      ApplyLists(s, es[|es| - 1]);
      ApplySweepsNothing(s, es[|es| - 1]);
    }
  }

  // ---------- the race itself ----------

  /** A create is about to store a row behind the back of a purge whose listing is finished. */
  ghost predicate Racing(s: System, c: Id, p: Id) {
    && c in s.threads && p in s.threads && s.threads[c].Create? && s.threads[c].creating.Insert?
    && s.w.db.CanInsert(s.threads[c].creating.row) && s.threads[c].creating.row.At() in s.w.fleet
    && s.threads[p].Purge? && s.threads[p].purging.Each?
    && s.threads[p].purging.listed.Keys <= s.threads[p].purging.done
    && s.threads[p].customer == s.threads[c].creating.row.customer
  }

  lemma CreateStores(s: System, c: Id)
    requires c in s.threads && s.threads[c].Create? && s.threads[c].creating.Insert?
    requires s.w.db.CanInsert(s.threads[c].creating.row)
    ensures var i := s.threads[c].creating;
      Apply(s, Move(c, FINE)) == System(Stored(s.w, i.row), s.threads[c := Create(InsertKey(s.w.next, i.row, i.key))])
  {
    hide Stored;
  }

  lemma CreateEnds(s: System, c: Id)
    requires c in s.threads && s.threads[c].Create? && s.threads[c].creating.InsertKey?
    requires s.threads[c].creating.row.customer in s.w.db.customers
    ensures var i := s.threads[c].creating;
      Apply(s, Move(c, FINE)) == System(s.w.(db := s.w.db.InsertKey(i.key, i.row.customer)), s.threads - {c})
  {}

  lemma PurgeEnds(s: System, p: Id)
    requires p in s.threads && s.threads[p].Purge? && s.threads[p].purging.Each?
    requires s.threads[p].purging.listed.Keys <= s.threads[p].purging.done
    requires s.threads[p].customer in s.w.db.customers
    ensures Apply(s, Move(p, FINE)) == System(Cascade(s.w, s.threads[p].customer), s.threads - {p})
  {
    hide Cascade;
  }

  /** Whenever that happens the cascade strands the tenant, though every call and statement succeeds. */
  lemma TheRaceStrands(s: System, c: Id, p: Id)
    requires NoneAdrift(s) && Racing(s, c, p)
    ensures var a := s.threads[c].creating.row.At();
      var s' := Apply(Apply(Apply(s, Move(c, FINE)), Move(c, FINE)), Move(p, FINE));
      a in s'.w.fleet && !Referenced(s'.w, a) && !InFlight(s', a) && a in s'.w.book.swept
  {
    hide Next, NoneAdrift;
    var row := s.threads[c].creating.row;
    var s1 := Apply(s, Move(c, FINE));
    var s2 := Apply(s1, Move(c, FINE));
    var s3 := Apply(s2, Move(p, FINE));
    assert NoneAdrift(s3) by {
      ApplyAccounts(s, Move(c, FINE));
      ApplyAccounts(s1, Move(c, FINE));
      ApplyAccounts(s2, Move(p, FINE));
    }
    CreateStores(s, c);
    CreateEnds(s1, c);
    PurgeEnds(s2, p);
    hide Apply;
    assert s2.w.db.subs[s.w.next] == row && row.At() in s2.w.fleet;
    SweptIsAdrift(s3, row.At());
  }

  lemma SweptIsAdrift(s: System, a: Addr)
    requires NoneAdrift(s) && a in s.w.book.swept
    ensures !Referenced(s.w, a) && !InFlight(s, a)
  {
    forall r | r in s.w.db.subs ensures s.w.db.subs[r].At() != a { assert SoundRow(s.w, r, s.w.db.subs[r]); }
    forall t | t in s.threads ensures Secret(s.threads[t]) != Some(a) { assert SoundThread(s.w, s.threads[t]); }
  }

  /** And an installation with one customer, one plan and one node can get there without any failure. */
  lemma TheRaceIsReachable(clock: int)
    ensures exists es, c, p :: Scenarios.Smooth(es) && Racing(Run(Fresh(clock), es), c, p)
  {
    var h1, s1 := Scenarios.SetUp(clock, 30);
    Scenarios.CreateProvisions(s1.w, 1, 2, 3, 0);
    hide Run, Alone;
    var h2, s2 := Scenarios.Enter(Fresh(clock), h1, 4, Create(ReadCustomer(1, 2, 3, 0)), Scenarios.Lucky(4));
    PurgeLists(s2.w, 1);
    hide Next;
    var h3, s3 := Scenarios.Enter(Fresh(clock), h2, 5, Purge(1, ListAll), Scenarios.Lucky(1));
    assert Racing(s3, 4, 5);
  }

  lemma PurgeLists(w: World, customer: Id)
    requires w.db.subs == map[]
    ensures Alone(w, Purge(customer, ListAll), Scenarios.Lucky(1)) == Outcome(w, Some(Purge(customer, Each(map[], {}))))
  {
    Scenarios.AloneAtFirst(w, Purge(customer, ListAll));
    Scenarios.AloneOn(w, Purge(customer, ListAll), 0, w, Purge(customer, ListAll));
  }
}
