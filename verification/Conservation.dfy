/**
 * No purchase is lost: however top-ups interleave and fail, a row's quota is its plan's quota
 * plus every increment that was executed and not taken back.
 */
module Conservation {
  import opened Domain
  import opened Database
  import opened Protocol
  import opened Structure

  // ---------- sums over the log of increments ----------

  function Kept(log: seq<Purchase>, sid: Id): int {
    if log == [] then 0
    else
      var p := log[|log| - 1];
      Kept(log[..|log| - 1], sid) + if p.sid == sid && !p.undone then p.bytes else 0
  }

  /** Everything that was ever added, taken back or not. */
  function Bought(log: seq<Purchase>, sid: Id): int {
    if log == [] then 0
    else
      var p := log[|log| - 1];
      Bought(log[..|log| - 1], sid) + if p.sid == sid then p.bytes else 0
  }

  ghost predicate Positive(log: seq<Purchase>) { forall i | 0 <= i < |log| :: log[i].bytes > 0 }

  lemma KeptAfterBuy(log: seq<Purchase>, p: Purchase, sid: Id)
    ensures Kept(log + [p], sid) == Kept(log, sid) + if p.sid == sid && !p.undone then p.bytes else 0
    ensures Bought(log + [p], sid) == Bought(log, sid) + if p.sid == sid then p.bytes else 0
  {
    assert (log + [p])[..|log|] == log;
  }

  lemma {:induction false} KeptAfterUndo(log: seq<Purchase>, i: nat, sid: Id)
    requires i < |log| && !log[i].undone
    ensures Kept(log[i := log[i].(undone := true)], sid) 
            == Kept(log, sid) - if log[i].sid == sid then log[i].bytes else 0
    ensures Bought(log[i := log[i].(undone := true)], sid) == Bought(log, sid)
  {
    var log' := log[i := log[i].(undone := true)];
    var n := |log| - 1;
    if i == n {
      assert log'[..n] == log[..n];
    } else {
      KeptAfterUndo(log[..n], i, sid);
      assert log'[..n] == log[..n][i := log[i].(undone := true)];
    }
  }

  lemma {:induction false} KeptAtLeast(log: seq<Purchase>, sid: Id)
    requires Positive(log)
    ensures 0 <= Kept(log, sid) <= Bought(log, sid)
    ensures forall i | 0 <= i < |log| && log[i].sid == sid && !log[i].undone :: log[i].bytes <= Kept(log, sid)
  {
    if log != [] {
      KeptAtLeast(log[..|log| - 1], sid);
    }
  }

  lemma {:induction false} NothingKept(log: seq<Purchase>, sid: Id)
    requires forall i | 0 <= i < |log| :: log[i].sid < sid
    ensures Kept(log, sid) == 0 && Bought(log, sid) == 0
  {
    if log != [] { NothingKept(log[..|log| - 1], sid); }
  }

  // ---------- the invariant ----------

  /** The increment for which a running top-up is still responsible. */
  function Ticket(pc: Pc): Option<nat> {
    match pc
    case Topup(_, _, ReadBack(_, ticket)) => Some(ticket)
    case Topup(_, _, CallSet(_, ticket, _)) => Some(ticket)
    case Topup(_, _, TakeBack(_, ticket, _)) => Some(ticket)
    case _ => None
  }

  /** A row that is being created carries its plan's quota. */
  ghost predicate FromPlan(w: World, row: Row) {
    row.plan < w.next && (row.plan in w.db.plans ==> w.db.plans[row.plan].quota == row.quota)
  }

  ghost predicate Charged(w: World, pc: Pc) {
    match pc
    case Create(CallCreate(draft)) => FromPlan(w, draft)
    case Create(Insert(row, _)) => FromPlan(w, row)
    case Topup(sid, _, t) =>
      t.ReadBack? || t.CallSet? || t.TakeBack?
      ==> t.ticket < |w.book.log| && w.book.log[t.ticket] == Purchase(sid, t.bytes, false)
    case _ => true
  }

  ghost predicate Balanced(w: World) {
    && Positive(w.book.log) && (forall i | 0 <= i < |w.book.log| :: w.book.log[i].sid < w.next)
    && (forall r | r in w.db.subs && r in w.book.base ::
          w.db.subs[r].quota == w.book.base[r] + Kept(w.book.log, r)
          && (w.db.subs[r].plan in w.db.plans ==> w.book.base[r] == w.db.plans[w.db.subs[r].plan].quota))
  }

  ghost predicate Conserved(s: System) {
    && Sound(s) && Balanced(s.w)
    && (forall t | t in s.threads :: Charged(s.w, s.threads[t]))
    && (forall t, u | t in s.threads && u in s.threads && t != u ::
          Ticket(s.threads[t]).None? || Ticket(s.threads[t]) != Ticket(s.threads[u]))
  }

  // ---------- steps that leave quotas alone ----------

  ghost predicate SameQuotas(w: World, w': World) {
    && w'.book.log == w.book.log && w'.book.base == w.book.base
    && (forall r | r in w'.db.subs :: r in w.db.subs && w'.db.subs[r].quota == w.db.subs[r].quota)
  }

  lemma SameQuotasBalance(w: World, w': World)
    requires SoundWorld(w) && Balanced(w) && SameQuotas(w, w') && Evolves(w, w')
    ensures Balanced(w')
  {
    forall r | r in w'.db.subs
      ensures r < w.next && SameColumns(w'.db.subs[r], w.db.subs[r]) && w'.db.subs[r].plan < w.next
    {
      assert SoundRow(w, r, w.db.subs[r]);
      assert w.db.subs[r].plan in w.db.plans;
    }
  }

  lemma ToggleSavesQuotas(w: World, customer: Id, enable: bool, t: Toggling, f: Fate)
    ensures SameQuotas(w, ToggleStep(w, customer, enable, t, f).world)
  {}

  lemma RenewSavesQuotas(w: World, sid: Id, row: Row, r: RenewPhase, f: Fate)
    ensures SameQuotas(w, RenewStep(w, sid, row, r, f).world)
  {}

  lemma OthersSaveQuotas(w: World, pc: Pc, f: Fate)
    requires !pc.Topup? && !(pc.Create? && pc.creating.Insert?)
    ensures var o := Next(w, pc, f); SameQuotas(w, o.world) && (o.pc.Some? ==> Ticket(o.pc.value).None?)
  {
    hide ToggleStep, RenewStep;
    match pc
    case Toggle(c, enable, t) => ToggleSavesQuotas(w, c, enable, t, f); ToggleStays(w, c, enable, t, f);
    case Renew(sid, row, r) => RenewSavesQuotas(w, sid, row, r, f); RenewStays(w, sid, row, r, f);
    case Create(c) => CreateSavesQuotas(w, c, f);
    case _ =>
  }

  lemma CreateSavesQuotas(w: World, c: Creating, f: Fate)
    requires !c.Insert?
    ensures var o := CreateStep(w, c, f); SameQuotas(w, o.world) && (o.pc.Some? ==> o.pc.value.Create?)
  {}

  // ---------- the steps that do not ----------

  lemma StoredBalances(w: World, row: Row)
    requires SoundWorld(w) && Balanced(w) && FromPlan(w, row) && w.db.CanInsert(row)
    ensures Balanced(Stored(w, row))
  {
    NothingKept(w.book.log, w.next);
  }

  lemma BuyBalances(w: World, sid: Id, bytes: int)
    requires SoundWorld(w) && Balanced(w) && bytes > 0 && sid < w.next
    ensures var w' := Buy(w, sid, bytes); Balanced(w') && w'.book.log == w.book.log + [Purchase(sid, bytes, false)]
  {
    var w' := Buy(w, sid, bytes);
    var p := Purchase(sid, bytes, false);
    forall r | r in w'.db.subs && r in w'.book.base
      ensures w'.db.subs[r].quota == w'.book.base[r] + Kept(w'.book.log, r)
    {
      KeptAfterBuy(w.book.log, p, r);
      assert SoundRow(w, r, w.db.subs[r]);
    }
  }

  /** Taking an increment back cannot reach the clamp at zero. */
  lemma UnbuyBalances(w: World, sid: Id, bytes: int, ticket: nat)
    requires SoundWorld(w) && Balanced(w) && ticket < |w.book.log| && w.book.log[ticket] == Purchase(sid, bytes, false)
    ensures var w' := Unbuy(w, sid, bytes, ticket);
      && Balanced(w') && w'.book.log == w.book.log[ticket := Purchase(sid, bytes, true)]
      && (sid in w.db.subs ==> w'.db.subs[sid].quota == w.db.subs[sid].quota - bytes >= w.book.base[sid])
  {
    var w' := Unbuy(w, sid, bytes, ticket);
    KeptAtLeast(w.book.log, sid);
    BasesAreNotNegative(w);
    forall r | r in w'.db.subs && r in w'.book.base
      ensures w'.db.subs[r].quota == w'.book.base[r] + Kept(w'.book.log, r)
    {
      KeptAfterUndo(w.book.log, ticket, r);
    }
  }

  lemma BasesAreNotNegative(w: World)
    requires SoundWorld(w) && Balanced(w)
    ensures forall r | r in w.db.subs :: r in w.book.base && w.book.base[r] > 0
  {
    forall r | r in w.db.subs ensures r in w.book.base && w.book.base[r] > 0 {
      assert SoundRow(w, r, w.db.subs[r]);
      assert w.db.subs[r].plan in w.db.plans;
    }
  }

  // ---------- every step and event ----------

  lemma TopupBalances(w: World, sid: Id, row: Row, t: TopupPhase, f: Fate)
    requires SoundWorld(w) && Balanced(w) && Charged(w, Topup(sid, row, t)) && SoundThread(w, Topup(sid, row, t))
    ensures var o := TopupStep(w, sid, row, t, f); Balanced(o.world) && (o.pc.Some? ==> Charged(o.world, o.pc.value))
  {
    if t.Add? {
      if t.bytes > 0 {
        BuyBalances(w, sid, t.bytes);
        hide Buy, Balanced;
      }
    } else if t.TakeBack? {
      UnbuyBalances(w, sid, t.bytes, t.ticket);
      hide Unbuy, Balanced;
    } else {
      TopupKeeps(w, sid, row, t, f);
      TopupSavesQuotas(w, sid, row, t, f);
      hide SoundWorld, SoundThread, Evolves, Balanced, SameQuotas;
      SameQuotasBalance(w, TopupStep(w, sid, row, t, f).world);
    }
  }

  lemma TopupSavesQuotas(w: World, sid: Id, row: Row, t: TopupPhase, f: Fate)
    requires !t.Add? && !t.TakeBack?
    ensures SameQuotas(w, TopupStep(w, sid, row, t, f).world)
  {}

  lemma CreateBalances(w: World, c: Creating, f: Fate)
    requires SoundWorld(w) && Balanced(w) && Charged(w, Create(c)) && SoundCreating(w, c)
    ensures var o := CreateStep(w, c, f); Balanced(o.world) && (o.pc.Some? ==> Charged(o.world, o.pc.value))
  {
    if c.Insert? {
      if w.db.CanInsert(c.row) { StoredBalances(w, c.row); }
    } else {
      CreateKeeps(w, c, f);
      CreateSavesQuotas(w, c, f);
      SameQuotasBalance(w, CreateStep(w, c, f).world);
      CreateCharges(w, c, f);
    }
  }

  lemma CreateCharges(w: World, c: Creating, f: Fate)
    requires SoundWorld(w) && Charged(w, Create(c)) && SoundCreating(w, c)
    ensures var o := CreateStep(w, c, f); o.pc.Some? ==> Charged(o.world, o.pc.value)
  {}

  lemma NextBalances(w: World, pc: Pc, f: Fate)
    requires SoundWorld(w) && Balanced(w) && Charged(w, pc) && SoundThread(w, pc)
    ensures var o := Next(w, pc, f); Balanced(o.world) && (o.pc.Some? ==> Charged(o.world, o.pc.value))
  {
    hide CreateStep, DeleteStep, PurgeStep, ToggleStep, LifecycleStep, TopupStep, RenewStep;
    match pc {
      case Create(c) => CreateBalances(w, c, f);
      case Topup(sid, row, t) => TopupBalances(w, sid, row, t, f);
      case _ =>
        NextKeeps(w, pc, f);
        OthersSaveQuotas(w, pc, f);
        StaysOut(w, pc, f);
        hide Next, SoundThread, Balanced;
        SameQuotasBalance(w, Next(w, pc, f).world);
    }
  }

  lemma StaysOut(w: World, pc: Pc, f: Fate)
    requires !pc.Create?
    ensures var o := Next(w, pc, f); o.pc.Some? ==> !o.pc.value.Create?
  {
    if !Comes(pc) { NextIsSteady(w, pc, f); hide Next; }
  }

  /** The log only grows, except that a thread marks the entry of its own ticket. */
  ghost predicate LogGuarded(w: World, pc: Pc, o: Outcome) {
    && |w.book.log| <= |o.world.book.log|
    && (forall i | 0 <= i < |w.book.log| && Ticket(pc) != Some(i) :: o.world.book.log[i] == w.book.log[i])
    && (o.pc.Some? && Ticket(o.pc.value).Some?
       ==> Ticket(o.pc.value) == Ticket(pc) || Ticket(o.pc.value).value == |w.book.log|)
  }

  lemma NextGuardsLog(w: World, pc: Pc, f: Fate)
    ensures LogGuarded(w, pc, Next(w, pc, f))
  {
    hide TopupStep;
    if pc.Topup? { TopupGuardsLog(w, pc.sid, pc.row, pc.topup, f); }
    else if pc.Create? && pc.creating.Insert? {}
    else { OthersSaveQuotas(w, pc, f); hide Next; }
  }

  lemma TopupGuardsLog(w: World, sid: Id, row: Row, t: TopupPhase, f: Fate)
    ensures LogGuarded(w, Topup(sid, row, t), TopupStep(w, sid, row, t, f))
  {}

  lemma ChargedIsStable(w: World, w': World, pc: Pc)
    requires Charged(w, pc) && Evolves(w, w')
    requires Ticket(pc).Some?
             ==> Ticket(pc).value < |w'.book.log| && w'.book.log[Ticket(pc).value] == w.book.log[Ticket(pc).value]
    ensures Charged(w', pc)
  {}

  lemma MoveConserves(s: System, tid: Id, f: Fate)
    requires Conserved(s) && tid in s.threads
    ensures Conserved(Apply(s, Move(tid, f)))
  {
    var s' := Apply(s, Move(tid, f));
    var pc := s.threads[tid];
    var o := Next(s.w, pc, f);
    assert SoundWorld(s.w) && SoundThread(s.w, pc);
    hide Next, Sound, SoundWorld, SoundThread, Balanced, Evolves;
    ApplyKeeps(s, Move(tid, f));
    NextBalances(s.w, pc, f);
    NextGuardsLog(s.w, pc, f);
    OthersStayCharged(s, tid, o);
    TicketsStayApart(s, s', tid, o);
    hide Charged, Ticket, LogGuarded;
  }

  lemma OthersStayCharged(s: System, tid: Id, o: Outcome)
    requires Conserved(s) && tid in s.threads && LogGuarded(s.w, s.threads[tid], o) && Evolves(s.w, o.world)
    ensures forall t | t in s.threads && t != tid :: Charged(o.world, s.threads[t])
  {
    hide Sound, Balanced, Evolves;
    forall t | t in s.threads && t != tid ensures Charged(o.world, s.threads[t]) {
      assert Charged(s.w, s.threads[t]);
      ChargedIsStable(s.w, o.world, s.threads[t]);
    }
  }

  lemma TicketsStayApart(s: System, s': System, tid: Id, o: Outcome)
    requires Conserved(s) && tid in s.threads && LogGuarded(s.w, s.threads[tid], o)
    requires s'.threads == if o.pc.Some? then s.threads[tid := o.pc.value] else s.threads - {tid}
    ensures forall t, u | t in s'.threads && u in s'.threads && t != u ::
      Ticket(s'.threads[t]).None? || Ticket(s'.threads[t]) != Ticket(s'.threads[u])
  {
    hide Sound, Balanced;
    forall t | t in s.threads ensures Ticket(s.threads[t]).Some? ==> Ticket(s.threads[t]).value < |s.w.book.log| {
      assert Charged(s.w, s.threads[t]);
    }
    hide Charged;
  }

  lemma ApplyConserves(s: System, e: Event)
    requires Conserved(s)
    ensures Conserved(Apply(s, e))
  {
    if e.Move? && e.tid in s.threads {
      MoveConserves(s, e.tid, e.fate);
    } else {
      QuietConserves(s, e);
    }
  }

  lemma QuietConserves(s: System, e: Event)
    requires Conserved(s) && (e.Move? ==> e.tid !in s.threads)
    ensures Conserved(Apply(s, e))
  {
    hide Apply, SoundThread, SoundWorld, Balanced;
    var s' := Apply(s, e);
    ApplyKeeps(s, e);
    QuietIsSteady(s, e);
    QuietSavesQuotas(s, e);
    SameQuotasBalance(s.w, s'.w);
    forall t | t in s'.threads ensures Charged(s'.w, s'.threads[t]) {
      if t in s.threads { ChargedIsStable(s.w, s'.w, s.threads[t]); }
    }
  }

  lemma QuietSavesQuotas(s: System, e: Event)
    requires e.Move? ==> e.tid !in s.threads
    ensures SameQuotas(s.w, Apply(s, e).w)
  {}

  lemma {:induction false} RunConserves(clock: int, es: seq<Event>)
    ensures Conserved(Run(Fresh(clock), es))
  {
    if es != [] {
      RunConserves(clock, es[..|es| - 1]);
      ApplyConserves(Run(Fresh(clock), es[..|es| - 1]), es[|es| - 1]);
    }
  }

  // ---------- the main results ----------

  /** In every reachable state: the plan's quota plus what was bought and not taken back. */
  lemma QuotaIsConserved(clock: int, es: seq<Event>, sid: Id)
    requires sid in Run(Fresh(clock), es).w.db.subs
    ensures var w := Run(Fresh(clock), es).w; var row := w.db.subs[sid];
      row.plan in w.db.plans && row.quota == w.db.plans[row.plan].quota + Kept(w.book.log, sid)
      && w.db.plans[row.plan].quota <= row.quota <= w.db.plans[row.plan].quota + Bought(w.book.log, sid)
  {
    RunConserves(clock, es);
    var w := Run(Fresh(clock), es).w;
    assert SoundRow(w, sid, w.db.subs[sid]);
    KeptAtLeast(w.book.log, sid);
  }

  /** A rollback takes back exactly its own increment: the clamp at zero never fires. */
  lemma RollbackIsExact(clock: int, es: seq<Event>, tid: Id, f: Fate)
    requires var s := Run(Fresh(clock), es); tid in s.threads && s.threads[tid].Topup? && s.threads[tid].topup.TakeBack?
    requires var s := Run(Fresh(clock), es); f.db && s.threads[tid].sid in s.w.db.subs
    ensures var s := Run(Fresh(clock), es); var pc := s.threads[tid]; var w' := Apply(s, Move(tid, f)).w;
      && w'.db.subs.Keys == s.w.db.subs.Keys
      && w'.db.subs[pc.sid].quota == s.w.db.subs[pc.sid].quota - pc.topup.bytes
      && (forall r | r in s.w.db.subs && r != pc.sid :: w'.db.subs[r].quota == s.w.db.subs[r].quota)
  {
    var s := Run(Fresh(clock), es);
    var pc := s.threads[tid];
    RunConserves(clock, es);
    assert Charged(s.w, pc);
    UnbuyBalances(s.w, pc.sid, pc.topup.bytes, pc.topup.ticket);
    hide Run, Conserved, Balanced, SoundWorld, CreateStep, DeleteStep, PurgeStep, ToggleStep, LifecycleStep, RenewStep;
  }
}
