/**
 * Stale but never invented: whatever the order in which SetQuota calls reach a node, the quota
 * that a tenant holds is one that the panel had on record for it at some moment.
 */
module NodeQuota {
  import opened Domain
  import opened Database
  import opened Protocol
  import opened Structure
  import opened Conservation

  ghost predicate OnRecord(w: World, a: Addr, quota: int) { a in w.book.held && quota in w.book.held[a] }

  ghost predicate QuotesRecord(w: World, pc: Pc) {
    match pc
    case Create(Insert(row, _)) => row.At() in w.book.held && w.book.held[row.At()] == {row.quota}
    case LoadNode(_, row, _) => OnRecord(w, row.At(), row.quota)
    case Topup(_, row, t) => t.CallSet? ==> OnRecord(w, row.At(), t.quota)
    case Renew(_, row, _) => OnRecord(w, row.At(), row.quota)
    case _ => true
  }

  ghost predicate Faithful(w: World) {
    && (forall a | a in w.fleet :: OnRecord(w, a, w.fleet[a].quota))
    && (forall r | r in w.db.subs :: OnRecord(w, w.db.subs[r].At(), w.db.subs[r].quota))
  }

  /** Recorded quotas lie between the creation quota and everything ever bought on top of it. */
  ghost predicate Bounded(w: World)
    requires SoundWorld(w)
  {
    forall a | a in w.book.owner :: forall v | v in w.book.held[a] ::
      w.book.base[w.book.owner[a]] <= v <= w.book.base[w.book.owner[a]] + Bought(w.book.log, w.book.owner[a])
  }

  ghost predicate Truthful(s: System) {
    && Conserved(s) && Faithful(s.w) && Bounded(s.w)
    && (forall t | t in s.threads :: QuotesRecord(s.w, s.threads[t]))
  }

  // ---------- steps ----------

  /** The records of a step: they grow by the row's own quota, and only for stored subscriptions. */
  ghost predicate RecordsKept(w: World, w': World) {
    && (forall a | a in w.book.held :: a in w'.book.held && w.book.held[a] <= w'.book.held[a])
    && (forall a | a in w.book.held && a !in w.book.owner :: w'.book.held[a] == w.book.held[a])
    && (forall a, v | a in w.book.held && v in w'.book.held[a] && v !in w.book.held[a] ::
          exists r :: r in w'.db.subs && w'.db.subs[r].At() == a && w'.db.subs[r].quota == v)
  }

  lemma SameRecords(w: World, w': World)
    requires w'.book.held == w.book.held
    ensures RecordsKept(w, w')
  {}

  lemma HoldingKeepsRecords(w: World, w1: World, sid: Id)
    requires SoundWorld(w) && w1.book.held == w.book.held && w1.book.owner == w.book.owner
    requires w1.db.subs.Keys == w.db.subs.Keys
    requires forall r | r in w.db.subs :: SameColumns(w1.db.subs[r], w.db.subs[r])
    ensures RecordsKept(w, Holding(w1, sid))
  {
    if sid in w.db.subs { assert SoundRow(w, sid, w.db.subs[sid]); }
  }

  /** Steps that touch no quota on either side. */
  lemma UntouchedIsFaithful(w: World, w': World)
    requires Faithful(w) && w'.book.held == w.book.held
    requires forall a | a in w'.fleet :: a in w.fleet && w'.fleet[a].quota == w.fleet[a].quota
    requires forall r | r in w'.db.subs :: r in w.db.subs && w'.db.subs[r].At() == w.db.subs[r].At()
                                           && w'.db.subs[r].quota == w.db.subs[r].quota
    ensures Faithful(w') && RecordsKept(w, w')
  {}

  lemma TopupIsFaithful(w: World, sid: Id, row: Row, t: TopupPhase, f: Fate)
    requires SoundWorld(w) && Faithful(w) && QuotesRecord(w, Topup(sid, row, t))
    requires SoundThread(w, Topup(sid, row, t))
    ensures var o := TopupStep(w, sid, row, t, f);
      Faithful(o.world) && RecordsKept(w, o.world) && (o.pc.Some? ==> QuotesRecord(o.world, o.pc.value))
  {
    var w' := TopupStep(w, sid, row, t, f).world;
    if t.Add? || t.TakeBack? {
      SameRecords(w, w);
      QuotaChangeIsFaithful(w, sid, row, t, f);
    } else if t.CallSet? {
      CallSetIsFaithful(w, row, t.quota, f);
    } else {
      UntouchedIsFaithful(w, w');
      ReadBackQuotes(w, sid, row, t, f);
    }
  }

  lemma ReadBackQuotes(w: World, sid: Id, row: Row, t: TopupPhase, f: Fate)
    requires Faithful(w) && SoundThread(w, Topup(sid, row, t)) && !t.CallSet? && !t.Add?
    ensures var o := TopupStep(w, sid, row, t, f); o.pc.Some? ==> QuotesRecord(o.world, o.pc.value)
  {}

  lemma CallSetIsFaithful(w: World, row: Row, quota: int, f: Fate)
    requires Faithful(w) && OnRecord(w, row.At(), quota)
    ensures var w' := Configure(w, row.At(), quota, row.credit, row.endAt, f); Faithful(w') && RecordsKept(w, w')
  {
    SameRecords(w, Configure(w, row.At(), quota, row.credit, row.endAt, f));
  }

  lemma QuotaChangeIsFaithful(w: World, sid: Id, row: Row, t: TopupPhase, f: Fate)
    requires SoundWorld(w) && Faithful(w) && (t.Add? || t.TakeBack?)
    ensures var w' := TopupStep(w, sid, row, t, f).world; w' != w ==> Faithful(w') && RecordsKept(w, w')
  {
    hide Holding, Faithful, RecordsKept;
    var delta, log;
    if t.Add? {
      delta, log := t.bytes, w.book.log + [Purchase(sid, t.bytes, false)];
    } else {
      var undone := w.book.log;
      if t.ticket < |undone| { undone := undone[t.ticket := undone[t.ticket].(undone := true)]; }
      delta, log := -t.bytes, undone;
    }
    var w1 := w.(db := w.db.AddQuota(sid, delta), book := w.book.(log := log));
    HoldingKeepsRecords(w, w1, sid);
    HoldingIsFaithful(w, w1, sid);
  }

  lemma HoldingIsFaithful(w: World, w1: World, sid: Id)
    requires SoundWorld(w) && Faithful(w) && w1.fleet == w.fleet && w1.book.held == w.book.held
    requires w1.db.subs.Keys == w.db.subs.Keys
    requires forall r | r in w.db.subs :: SameColumns(w1.db.subs[r], w.db.subs[r])
    requires forall r | r in w.db.subs && r != sid :: w1.db.subs[r] == w.db.subs[r]
    ensures Faithful(Holding(w1, sid))
  {
    if sid in w.db.subs { assert SoundRow(w, sid, w.db.subs[sid]); }
  }

  lemma RenewIsFaithful(w: World, sid: Id, row: Row, r: RenewPhase, f: Fate)
    requires Faithful(w) && QuotesRecord(w, Renew(sid, row, r))
    ensures var o := RenewStep(w, sid, row, r, f);
      Faithful(o.world) && RecordsKept(w, o.world) && (o.pc.Some? ==> QuotesRecord(o.world, o.pc.value))
  {
    SameRecords(w, RenewStep(w, sid, row, r, f).world);
  }

  lemma ProvisionIsFaithful(w: World, draft: Row, f: Fate)
    requires SoundWorld(w) && Faithful(w)
    ensures var o := Provision(w, draft, f);
      Faithful(o.world) && RecordsKept(w, o.world) && (o.pc.Some? ==> QuotesRecord(o.world, o.pc.value))
  {
    IdsAreBelowNext(w);
    assert forall a | a in w.book.held :: a.tenant < w.next;
    hide SoundWorld, SoundRow, QuotesRecord;
    if f.reply == Done { ProvisionQuotes(w, draft, f); }
    ProvisionKeepsRecords(w, draft, f);
    hide RecordsKept;
  }

  lemma ProvisionKeepsRecords(w: World, draft: Row, f: Fate)
    requires forall a | a in w.book.held :: a.tenant < w.next
    ensures RecordsKept(w, Provision(w, draft, f).world)
  {}

  lemma ProvisionQuotes(w: World, draft: Row, f: Fate)
    requires f.reply == Done
    ensures var o := Provision(w, draft, f); o.pc.Some? && QuotesRecord(o.world, o.pc.value)
  {}

  lemma CreateIsFaithful(w: World, c: Creating, f: Fate)
    requires SoundWorld(w) && Faithful(w) && SoundCreating(w, c) && QuotesRecord(w, Create(c))
    ensures var o := CreateStep(w, c, f);
      Faithful(o.world) && RecordsKept(w, o.world) && (o.pc.Some? ==> QuotesRecord(o.world, o.pc.value))
  {
    if c.CallCreate? {
      ProvisionIsFaithful(w, c.draft, f);
      hide Provision;
    } else if c.Insert? {
      InsertIsFaithful(w, c.row, c.key, f);
      hide CreateStep, Faithful, RecordsKept, SoundWorld, SoundCreating;
    } else {
      hide Provision, SoundWorld, SoundCreating;
      CreateLeavesQuotas(w, c, f);
      UntouchedIsFaithful(w, CreateStep(w, c, f).world);
      hide CreateStep, Faithful, RecordsKept;
    }
  }

  lemma CreateLeavesQuotas(w: World, c: Creating, f: Fate)
    requires !c.CallCreate? && !c.Insert?
    ensures var o := CreateStep(w, c, f); var w' := o.world;
      && w'.book.held == w.book.held
      && (forall a | a in w'.fleet :: a in w.fleet && w'.fleet[a].quota == w.fleet[a].quota)
      && (forall r | r in w'.db.subs :: r in w.db.subs && w'.db.subs[r] == w.db.subs[r])
      && (o.pc.Some? ==> QuotesRecord(w', o.pc.value))
  {}

  lemma InsertIsFaithful(w: World, row: Row, key: Id, f: Fate)
    requires Faithful(w) && QuotesRecord(w, Create(Insert(row, key)))
    ensures var o := CreateStep(w, Insert(row, key), f);
      Faithful(o.world) && RecordsKept(w, o.world) && (o.pc.Some? ==> QuotesRecord(o.world, o.pc.value))
  {
    SameRecords(w, CreateStep(w, Insert(row, key), f).world);
  }

  lemma NextIsFaithful(w: World, pc: Pc, f: Fate)
    requires SoundWorld(w) && Faithful(w) && SoundThread(w, pc) && QuotesRecord(w, pc)
    ensures var o := Next(w, pc, f);
      Faithful(o.world) && RecordsKept(w, o.world) && (o.pc.Some? ==> QuotesRecord(o.world, o.pc.value))
  {
    if pc.Create? { CreateIsFaithful(w, pc.creating, f); hide CreateStep; }
    else if pc.Topup? { TopupIsFaithful(w, pc.sid, pc.row, pc.topup, f); hide TopupStep; }
    else if pc.Renew? { RenewIsFaithful(w, pc.sid, pc.row, pc.renew, f); hide RenewStep; }
    else {
      OthersSaveQuotas(w, pc, f);
      NodesSaveQuotas(w, pc, f);
      UntouchedIsFaithful(w, Next(w, pc, f).world);
      LoadQuotes(w, pc, f);
    }
  }

  lemma NodesSaveQuotas(w: World, pc: Pc, f: Fate)
    requires !pc.Create? && !pc.Topup? && !pc.Renew?
    ensures var w' := Next(w, pc, f).world;
      && w'.book.held == w.book.held
      && (forall a | a in w'.fleet :: a in w.fleet && w'.fleet[a].quota == w.fleet[a].quota)
      && (forall r | r in w'.db.subs :: r in w.db.subs && w'.db.subs[r].At() == w.db.subs[r].At())
  {
    if pc.Toggle? { ToggleSavesTenants(w, pc.customer, pc.enable, pc.toggling, f); hide ToggleStep; }
  }

  lemma ToggleSavesTenants(w: World, customer: Id, enable: bool, t: Toggling, f: Fate)
    ensures var w' := ToggleStep(w, customer, enable, t, f).world;
      && w'.book.held == w.book.held
      && (forall a | a in w'.fleet :: a in w.fleet && w'.fleet[a].quota == w.fleet[a].quota)
      && (forall r | r in w'.db.subs :: r in w.db.subs && w'.db.subs[r].At() == w.db.subs[r].At())
  {}

  lemma LoadQuotes(w: World, pc: Pc, f: Fate)
    requires Faithful(w) && QuotesRecord(w, pc) && !pc.Create? && !pc.Topup? && !pc.Renew?
    ensures var o := Next(w, pc, f); o.pc.Some? ==> QuotesRecord(o.world, o.pc.value)
  {
    if Comes(pc) {} else if pc.Toggle? { ToggleStays(w, pc.customer, pc.enable, pc.toggling, f); hide ToggleStep; }
  }

  lemma QuotesAreStable(w: World, w': World, pc: Pc)
    requires QuotesRecord(w, pc) && RecordsKept(w, w')
    requires Secret(pc).Some? ==> Secret(pc).value !in w.book.owner
    ensures QuotesRecord(w', pc)
  {}

  /** The bounds follow from conservation: a new record is the quota of a balanced row. */
  lemma BoundsFollow(w: World, w': World)
    requires SoundWorld(w) && Bounded(w) && SoundWorld(w') && Balanced(w') && Evolves(w, w') && RecordsKept(w, w')
    requires forall a | a in w'.book.owner && a !in w.book.owner ::
      w'.book.held[a] == {w'.book.base[w'.book.owner[a]]}
    requires forall o :: Bought(w.book.log, o) <= Bought(w'.book.log, o)
    requires Positive(w'.book.log)
    ensures Bounded(w')
  {
    forall a, v | a in w'.book.owner && v in w'.book.held[a]
      ensures w'.book.base[w'.book.owner[a]] <= v
              <= w'.book.base[w'.book.owner[a]] + Bought(w'.book.log, w'.book.owner[a])
    {
      KeptAtLeast(w'.book.log, w'.book.owner[a]);
      if a in w.book.owner && v !in w.book.held[a] {
        var r :| r in w'.db.subs && w'.db.subs[r].At() == a && w'.db.subs[r].quota == v;
        RecordIsBounded(w', r);
      }
    }
  }

  lemma RecordIsBounded(w: World, r: Id)
    requires SoundWorld(w) && Balanced(w) && Positive(w.book.log) && r in w.db.subs
    ensures var a := w.db.subs[r].At();
      a in w.book.owner && w.book.owner[a] in w.book.base
      && w.book.base[w.book.owner[a]] <= w.db.subs[r].quota
         <= w.book.base[w.book.owner[a]] + Bought(w.book.log, w.book.owner[a])
  {
    assert SoundRow(w, r, w.db.subs[r]);
    KeptAtLeast(w.book.log, r);
  }

  lemma NextBuys(w: World, pc: Pc, f: Fate)
    requires SoundWorld(w) && Charged(w, pc) && SoundThread(w, pc) && QuotesRecord(w, pc) && Positive(w.book.log)
    ensures var w' := Next(w, pc, f).world;
      && (forall o :: Bought(w.book.log, o) <= Bought(w'.book.log, o))
      && (forall a | a in w'.book.owner && a !in w.book.owner :: a in w'.book.held && w'.book.owner[a] in w'.book.base
                                                               && w'.book.held[a] == {w'.book.base[w'.book.owner[a]]})
  {
    if pc.Topup? {
      var t := pc.topup;
      NextIsSteady(w, pc, f);
      forall o ensures Bought(w.book.log, o) <= Bought(Next(w, pc, f).world.book.log, o) {
        if t.Add? { KeptAfterBuy(w.book.log, Purchase(pc.sid, t.bytes, false), o); }
        else if t.TakeBack? { KeptAfterUndo(w.book.log, t.ticket, o); }
      }
    } else if pc.Create? && pc.creating.Insert? {
    } else {
      OthersSaveQuotas(w, pc, f);
      NextIsDiscreet(w, pc, f);
      OwnersStay(w, pc, f);
    }
  }

  lemma OwnersStay(w: World, pc: Pc, f: Fate)
    requires !(pc.Create? && pc.creating.Insert?)
    ensures Next(w, pc, f).world.book.owner == w.book.owner
  {
    if !Comes(pc) { NextIsSteady(w, pc, f); hide Next; }
  }

  // ---------- events ----------

  lemma MoveIsTruthful(s: System, tid: Id, f: Fate)
    requires Truthful(s) && tid in s.threads
    ensures Truthful(Apply(s, Move(tid, f)))
  {
    var s' := Apply(s, Move(tid, f));
    var pc := s.threads[tid];
    ApplyKeeps(s, Move(tid, f));
    ApplyConserves(s, Move(tid, f));
    NextIsFaithful(s.w, pc, f);
    NextBuys(s.w, pc, f);
    hide Next, Faithful, SoundThread, SoundRow, Evolves, Charged;
    BoundsFollow(s.w, s'.w);
    forall t | t in s.threads ensures SoundThread(s.w, s.threads[t]) {}
    OthersStillQuote(s, s'.w);
    hide Bounded, Sound, QuotesRecord, RecordsKept;
  }

  lemma OthersStillQuote(s: System, w': World)
    requires RecordsKept(s.w, w')
    requires forall t | t in s.threads :: SoundThread(s.w, s.threads[t]) && QuotesRecord(s.w, s.threads[t])
    ensures forall t | t in s.threads :: QuotesRecord(w', s.threads[t])
  {
    forall t | t in s.threads ensures QuotesRecord(w', s.threads[t]) {
      QuotesAreStable(s.w, w', s.threads[t]);
    }
  }

  lemma QuietIsFaithful(s: System, e: Event)
    requires Sound(s) && Faithful(s.w) && (e.Move? ==> e.tid !in s.threads)
    ensures var w' := Apply(s, e).w; Faithful(w') && w'.book == s.w.book.(trail := w'.book.trail)
  {
    hide Sound, Next, Notices;
  }

  lemma ApplyIsTruthful(s: System, e: Event)
    requires Truthful(s)
    ensures Truthful(Apply(s, e))
  {
    if e.Move? && e.tid in s.threads {
      MoveIsTruthful(s, e.tid, e.fate);
    } else {
      QuietIsTruthful(s, e);
    }
  }

  lemma QuietIsTruthful(s: System, e: Event)
    requires Truthful(s) && (e.Move? ==> e.tid !in s.threads)
    ensures Truthful(Apply(s, e))
  {
    hide Apply, Faithful, Balanced, SoundRow;
    var s' := Apply(s, e);
    ApplyConserves(s, e);
    QuietIsSteady(s, e);
    QuietIsFaithful(s, e);
    SameRecords(s.w, s'.w);
    assert Bounded(s'.w);
    forall t | t in s.threads ensures SoundThread(s.w, s.threads[t]) {}
    hide Bounded, Sound;
    OthersStillQuote(s, s'.w);
    forall t | t in s'.threads && t !in s.threads ensures QuotesRecord(s'.w, s'.threads[t]) {}
  }

  lemma {:induction false} RunIsTruthful(clock: int, es: seq<Event>)
    ensures Truthful(Run(Fresh(clock), es))
  {
    if es != [] {
      RunIsTruthful(clock, es[..|es| - 1]);
      ApplyIsTruthful(Run(Fresh(clock), es[..|es| - 1]), es[|es| - 1]);
    }
  }

  // ---------- every quota on record was the row's own, or that of the create ----------

  /** A create is about to ask the node for this tenant with this quota. */
  predicate AsksFor(w: World, pc: Pc, a: Addr, quota: int) {
    && pc.Create? && pc.creating.CallCreate?
    && pc.creating.draft.(tenant := w.next).At() == a && pc.creating.draft.quota == quota
  }

  /** At this moment the tenant's row has this quota, or its create asks for it. */
  ghost predicate Quoted(s: System, a: Addr, quota: int) {
    || (exists r :: r in s.w.db.subs && s.w.db.subs[r].At() == a && s.w.db.subs[r].quota == quota)
    || (exists t :: t in s.threads && AsksFor(s.w, s.threads[t], a, quota))
  }

  lemma FirstRecords(w: World, pc: Pc, f: Fate, a: Addr, quota: int)
    requires a !in w.book.held && OnRecord(Next(w, pc, f).world, a, quota)
    ensures AsksFor(w, pc, a, quota)
  {
    if !Comes(pc) { NextIsSteady(w, pc, f); hide Next; }
  }

  lemma NewRecordIsQuoted(s: System, e: Event, a: Addr, quota: int)
    requires Truthful(s) && !OnRecord(s.w, a, quota) && OnRecord(Apply(s, e).w, a, quota)
    ensures Quoted(s, a, quota) || Quoted(Apply(s, e), a, quota)
  {
    if e.Move? && e.tid in s.threads {
      var pc := s.threads[e.tid];
      assert SoundThread(s.w, pc);
      NextIsFaithful(s.w, pc, e.fate);
      hide Next, Faithful, SoundWorld, SoundThread, Truthful;
      if a !in s.w.book.held { FirstRecords(s.w, pc, e.fate, a, quota); }
    } else {
      QuietIsFaithful(s, e);
      hide Apply;
    }
  }

  /** At some moment of the run. */
  ghost predicate WasQuoted(clock: int, es: seq<Event>, a: Addr, quota: int) {
    exists k :: 0 <= k <= |es| && Quoted(Run(Fresh(clock), es[..k]), a, quota)
  }

  lemma QuotedNow(clock: int, es: seq<Event>, a: Addr, quota: int)
    requires Quoted(Run(Fresh(clock), es), a, quota)
    ensures WasQuoted(clock, es, a, quota)
  {
    hide Run, Fresh, Quoted;
    assert es[..|es|] == es;
  }

  lemma QuotedBefore(clock: int, es: seq<Event>, e: Event, a: Addr, quota: int)
    requires WasQuoted(clock, es, a, quota)
    ensures WasQuoted(clock, es + [e], a, quota)
  {
    hide Run, Fresh, Quoted;
    var k :| 0 <= k <= |es| && Quoted(Run(Fresh(clock), es[..k]), a, quota);
    assert (es + [e])[..k] == es[..k];
  }

  lemma {:induction false} RecordsWereQuoted(clock: int, es: seq<Event>, a: Addr, quota: int)
    requires OnRecord(Run(Fresh(clock), es).w, a, quota)
    ensures WasQuoted(clock, es, a, quota)
    decreases |es|
  {
    if es != [] {
      hide Apply, Fresh, OnRecord, Quoted, WasQuoted, Truthful;
      var init, e := es[..|es| - 1], es[|es| - 1];
      assert es == init + [e];
      var s := Run(Fresh(clock), init);
      if OnRecord(s.w, a, quota) {
        hide Run;
        RecordsWereQuoted(clock, init, a, quota);
        QuotedBefore(clock, init, e, a, quota);
      } else {
        RunIsTruthful(clock, init);
        NewRecordIsQuoted(s, e, a, quota);
        if Quoted(s, a, quota) {
          QuotedNow(clock, init, a, quota);
          QuotedBefore(clock, init, e, a, quota);
        } else {
          QuotedNow(clock, es, a, quota);
        }
      }
    }
  }

  /**
   * In every reachable state a live tenant's quota is one that its row had, or its create asked for,
   * at some moment of the run; and once its subscription was stored it lies between the creation
   * quota and that plus all increments.
   */
  lemma NodeQuotaIsNeverInvented(clock: int, es: seq<Event>, a: Addr)
    requires a in Run(Fresh(clock), es).w.fleet
    ensures exists k :: 0 <= k <= |es| && Quoted(Run(Fresh(clock), es[..k]), a, Run(Fresh(clock), es).w.fleet[a].quota)
    ensures var w := Run(Fresh(clock), es).w; var quota := w.fleet[a].quota;
      a in w.book.owner ==> var sid := w.book.owner[a];
        sid in w.book.base && w.book.base[sid] <= quota <= w.book.base[sid] + Bought(w.book.log, sid)
  {
    RunIsTruthful(clock, es);
    RecordsWereQuoted(clock, es, a, Run(Fresh(clock), es).w.fleet[a].quota);
    hide Quoted, Run;
  }
}
