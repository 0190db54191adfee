/**
 * Panel and node agree on quota, credit and expiry whenever nothing is under way for a
 * subscription, as long as its own top-ups and renewals do not overlap and none of them breaks
 * off in one of four ways; and those four ways are exactly the ones that break the agreement.
 */
module Agreement {
  import opened Domain
  import opened Database
  import opened Protocol
  import opened Structure
  import opened Conservation
  import opened Overlap
  import Scenarios
  import Threshold

  // ---------- the premise ----------

  /**
   * What a worker's step may not meet: an increment that cannot be read back, a take-back that
   * fails although the node refused the quota or succeeds although the node took it, and a
   * renewed expiry that only one side keeps.
   */
  predicate Fair(pc: Pc, f: Fate) {
    match pc
    case Topup(_, _, ReadBack(_, _)) => f.db
    case Topup(_, _, TakeBack(_, _, landed)) => f.db != landed
    case Renew(_, _, CallRenewed(_, _)) => f.reply != Lost
    case Renew(_, _, WriteRenewed(_, _)) => f.db
    case _ => true
  }

  /** For one subscription; what befalls all others is free. */
  predicate Disciplined(s: System, e: Event, sid: Id) {
    && Apart(s, e, sid, AnyWork)
    && (e.Move? && e.tid in s.threads && Works(s.threads[e.tid], sid) ==> Fair(s.threads[e.tid], e.fate))
  }

  ghost predicate DisciplinedRun(s: System, es: seq<Event>, sid: Id) {
    forall k | 0 <= k < |es| :: Disciplined(Run(s, es[..k]), es[k], sid)
  }

  // ---------- the invariant ----------

  /** The tenant of a stored subscription is live. */
  predicate Live(w: World, sid: Id) { sid in w.db.subs && w.db.subs[sid].At() in w.fleet }

  ghost predicate Synced(w: World, sid: Id) {
    Live(w, sid) ==> var row := w.db.subs[sid]; Matches(w.fleet[row.At()], row.quota, row.credit, row.endAt)
  }

  /** The snapshot still has the row's quota and expiry. */
  ghost predicate Current(w: World, sid: Id, row: Row) {
    Live(w, sid) ==> row.quota == w.db.subs[sid].quota && row.endAt == w.db.subs[sid].endAt
  }

  ghost predicate MidTopup(w: World, sid: Id, row: Row, t: TopupPhase) {
    match t
    case Add(_) => Synced(w, sid) && Current(w, sid, row)
    case ReadBack(bytes, _) => Live(w, sid) ==> var r := w.db.subs[sid];
      Matches(w.fleet[r.At()], r.quota - bytes, r.credit, r.endAt) && row.endAt == r.endAt
    case CallSet(bytes, _, quota) => Live(w, sid) ==> var r := w.db.subs[sid];
      Matches(w.fleet[r.At()], r.quota - bytes, r.credit, r.endAt) && row.endAt == r.endAt && quota == r.quota
    case TakeBack(bytes, _, landed) => Live(w, sid) ==> var r := w.db.subs[sid];
      Matches(w.fleet[r.At()], if landed then r.quota else r.quota - bytes, r.credit, r.endAt)
    case CallResume(_) => Synced(w, sid)
    case WriteStatus(_) => Synced(w, sid)
    case WriteNotified(_) => Synced(w, sid)
  }

  ghost predicate MidRenew(w: World, sid: Id, row: Row, r: RenewPhase) {
    match r
    case WriteRenewed(endAt, _) => Live(w, sid) ==> var s := w.db.subs[sid];
      Matches(w.fleet[s.At()], s.quota, s.credit, endAt)
    case _ => Synced(w, sid) && Current(w, sid, row)
  }

  ghost predicate Phase(w: World, pc: Pc) {
    match pc
    case Create(Insert(row, _)) => row.At() in w.fleet ==> Matches(w.fleet[row.At()], row.quota, row.credit, row.endAt)
    case LoadSub(sid, task) => !task.Switch? ==> Synced(w, sid)
    case LoadNode(sid, row, task) => !task.Switch? ==> Synced(w, sid) && Current(w, sid, row)
    case Topup(sid, row, t) => MidTopup(w, sid, row, t)
    case Renew(sid, row, r) => MidRenew(w, sid, row, r)
    case _ => true
  }

  ghost predicate Agreed(s: System, sid: Id) {
    && Conserved(s) && AtMostOne(s, sid, AnyWork)
    && (forall t | t in s.threads && (Works(s.threads[t], sid) || s.threads[t].Create?) :: Phase(s.w, s.threads[t]))
    && (!Busy(s, sid, AnyWork) ==> Synced(s.w, sid))
  }

  // ---------- a step of the worker itself ----------

  /** The expiry that a renewal is about to write is the one on record. */
  predicate SameEnd(w: World, pc: Pc, sid: Id) {
    pc.Renew? && !pc.renew.ReadItsPlan? && sid in w.db.subs && pc.renew.endAt == w.db.subs[sid].endAt
  }

  /** The worker goes on in the next phase, or it ends in agreement exactly after a fair step. */
  ghost predicate EndsFairly(w: World, pc: Pc, f: Fate, o: Outcome, sid: Id) {
    if o.pc.Some? then Works(o.pc.value, sid) && (Fair(pc, f) ==> Phase(o.world, o.pc.value))
    else Live(o.world, sid) ==> (Synced(o.world, sid) <==> Fair(pc, f) || SameEnd(w, pc, sid))
  }

  lemma TopupAgrees(w: World, sid: Id, row: Row, t: TopupPhase, f: Fate)
    requires SoundWorld(w) && Balanced(w) && SoundThread(w, Topup(sid, row, t)) && Charged(w, Topup(sid, row, t))
    requires MidTopup(w, sid, row, t)
    ensures var pc := Topup(sid, row, t); EndsFairly(w, pc, f, Next(w, pc, f), sid)
  {
    if t.TakeBack? {
      TakeBackAgrees(w, sid, row, t.bytes, t.ticket, t.landed, f);
    } else if t.Add? {
      AddAgrees(w, sid, row, t.bytes, f);
    } else {
      CallsAgree(w, sid, row, t, f);
    }
    hide Next, MidTopup, EndsFairly, SoundWorld, Balanced, Charged;
  }

  lemma AddAgrees(w: World, sid: Id, row: Row, bytes: int, f: Fate)
    requires SoundWorld(w) && MidTopup(w, sid, row, Add(bytes))
    ensures var pc := Topup(sid, row, Add(bytes)); EndsFairly(w, pc, f, Next(w, pc, f), sid)
  {
    assert sid in w.db.subs ==> SoundRow(w, sid, w.db.subs[sid]);
    hide SoundWorld;
  }

  lemma CallsAgree(w: World, sid: Id, row: Row, t: TopupPhase, f: Fate)
    requires !t.Add? && !t.TakeBack? && MidTopup(w, sid, row, t) && Snapshot(w, sid, row)
    requires t.ReadBack? || t.CallSet? ==> t.bytes > 0
    ensures var pc := Topup(sid, row, t); EndsFairly(w, pc, f, Next(w, pc, f), sid)
  {
    hide SoundRow, Threshold.Level;
  }

  lemma TakeBackAgrees(w: World, sid: Id, row: Row, bytes: int, ticket: nat, landed: bool, f: Fate)
    requires SoundWorld(w) && Balanced(w) && bytes > 0 && Charged(w, Topup(sid, row, TakeBack(bytes, ticket, landed)))
    requires MidTopup(w, sid, row, TakeBack(bytes, ticket, landed))
    ensures var pc := Topup(sid, row, TakeBack(bytes, ticket, landed)); EndsFairly(w, pc, f, Next(w, pc, f), sid)
  {
    UnbuyBalances(w, sid, bytes, ticket);
    hide SoundWorld, Balanced;
  }

  lemma RenewAgrees(w: World, sid: Id, row: Row, r: RenewPhase, f: Fate)
    requires Snapshot(w, sid, row) && MidRenew(w, sid, row, r)
    ensures EndsFairly(w, Renew(sid, row, r), f, RenewStep(w, sid, row, r, f), sid)
  {}

  lemma WorkerAgrees(w: World, pc: Pc, f: Fate, sid: Id)
    requires SoundWorld(w) && Balanced(w) && SoundThread(w, pc) && Charged(w, pc) && Phase(w, pc) && Works(pc, sid)
    ensures EndsFairly(w, pc, f, Next(w, pc, f), sid)
  {
    hide TopupStep, RenewStep;
    match pc
    case Topup(_, row, t) => TopupAgrees(w, sid, row, t, f);
    case Renew(_, row, r) => RenewAgrees(w, sid, row, r, f);
    case LoadSub(_, task) =>
    case LoadNode(_, row, task) =>
  }

  lemma PhaseIsStable(w: World, w': World, pc: Pc, sid: Id)
    requires Phase(w, pc) && (Works(pc, sid) || pc.Create?)
    requires Works(pc, sid) ==> Untouched(w, w', sid)
    requires pc.Create? && pc.creating.Insert? ==> SameTenant(w, w', pc.creating.row.At())
    ensures Phase(w', pc)
  {}

  /** A new row matches its tenant. */
  lemma CreatesKeepPhase(w: World, pc: Pc, f: Fate)
    ensures var o := Next(w, pc, f); o.pc.Some? && o.pc.value.Create? ==> Phase(o.world, o.pc.value)
  {
    hide TopupStep, RenewStep, ToggleStep, LifecycleStep;
    match pc
    case Create(c) => CreatePhase(w, c, f);
    case Toggle(c, enable, t) => ToggleStays(w, c, enable, t, f);
    case Lifecycle(sid, row, target, acked) => LifecycleStays(w, sid, row, target, acked, f);
    case Topup(sid, row, t) => TopupStays(w, sid, row, t, f);
    case Renew(sid, row, r) => RenewStays(w, sid, row, r, f);
    case _ =>
  }

  lemma CreatePhase(w: World, c: Creating, f: Fate)
    ensures CreateStep(w, c, f).pc.Some? ==>
      CreateStep(w, c, f).pc.value.Create? && Phase(CreateStep(w, c, f).world, CreateStep(w, c, f).pc.value)
  {}

  /** A row that a step stores matches its tenant. */
  lemma NewRowIsSynced(w: World, pc: Pc, f: Fate, sid: Id)
    requires SoundWorld(w) && SoundThread(w, pc) && (pc.Create? ==> Phase(w, pc)) && w.next <= sid
    ensures Synced(Next(w, pc, f).world, sid)
  {
    if pc.Create? {
      IdsAreBelowNext(w);
      if !pc.creating.Insert? { CreateTouchesNone(w, pc.creating, f); NextRows(w, pc, f, sid); hide CreateStep; }
    } else {
      NextRows(w, pc, f, sid);
      hide Next;
    }
  }

  // ---------- events ----------

  lemma MoveKeepsPhase(s: System, tid: Id, f: Fate, t: Id, sid: Id)
    requires Agreed(s, sid) && tid in s.threads && t in s.threads && t != tid
    requires Works(s.threads[t], sid) || s.threads[t].Create?
    ensures Phase(Next(s.w, s.threads[tid], f).world, s.threads[t])
  {
    var pc, other := s.threads[tid], s.threads[t];
    var w' := Next(s.w, pc, f).world;
    assert SoundThread(s.w, pc) && SoundThread(s.w, other);
    if other.LoadSub? && s.w.next <= other.sid {
      NewRowIsSynced(s.w, pc, f, other.sid);
    } else {
      if Works(other, sid) {
        assert !Works(pc, sid);
        OthersLeaveAlone(s.w, pc, f, sid);
      } else if other.creating.Insert? {
        SecretsAreLeftAlone(s.w, pc, f, other.creating.row);
      }
      hide Next;
      PhaseIsStable(s.w, w', other, sid);
    }
  }

  lemma MovePhases(s: System, tid: Id, f: Fate, sid: Id)
    requires Agreed(s, sid) && tid in s.threads && Disciplined(s, Move(tid, f), sid)
    ensures var s' := Apply(s, Move(tid, f));
      forall t | t in s'.threads && (Works(s'.threads[t], sid) || s'.threads[t].Create?) :: Phase(s'.w, s'.threads[t])
  {
    var s' := Apply(s, Move(tid, f));
    var pc := s.threads[tid];
    WorkBegan(s.w, pc, f, sid, AnyWork);
    if Works(pc, sid) {
      WorkerAgrees(s.w, pc, f, sid);
    } else {
      CreatesKeepPhase(s.w, pc, f);
    }
    hide Next, Phase, Conserved;
    forall t | t in s'.threads && (Works(s'.threads[t], sid) || s'.threads[t].Create?)
      ensures Phase(s'.w, s'.threads[t])
    {
      if t != tid { MoveKeepsPhase(s, tid, f, t, sid); }
    }
  }

  /** Where nobody works after the step, panel and node agree after the step. */
  lemma MoveSyncs(s: System, tid: Id, f: Fate, sid: Id)
    requires Agreed(s, sid) && tid in s.threads && Disciplined(s, Move(tid, f), sid)
    requires !Busy(Apply(s, Move(tid, f)), sid, AnyWork)
    ensures Synced(Apply(s, Move(tid, f)).w, sid)
  {
    var s' := Apply(s, Move(tid, f));
    var pc := s.threads[tid];
    var o := Next(s.w, pc, f);
    assert SoundThread(s.w, pc);
    assert o.pc.Some? ==> tid in s'.threads && s'.threads[tid] == o.pc.value;
    if Works(pc, sid) {
      WorkerAgrees(s.w, pc, f, sid);
    } else if s.w.next <= sid {
      NewRowIsSynced(s.w, pc, f, sid);
    } else {
      OthersLeaveAlone(s.w, pc, f, sid);
      hide Next;
      forall t | t in s.threads && t != tid ensures !Works(s.threads[t], sid) { assert s'.threads[t] == s.threads[t]; }
      assert Synced(s.w, sid);
    }
  }

  lemma QuietAgrees(s: System, e: Event, sid: Id)
    requires Agreed(s, sid) && Disciplined(s, e, sid) && (e.Move? ==> e.tid !in s.threads)
    ensures Agreed(Apply(s, e), sid)
  {
    hide Apply, Conserved, Phase, Synced, Works;
    var s' := Apply(s, e);
    ApplyConserves(s, e);
    StaysApart(s, e, sid, AnyWork);
    QuietTouchesNone(s, e);
    forall t | t in s.threads ensures t in s'.threads && s'.threads[t] == s.threads[t] { QuietStays(s, e, t); }
    forall t | t in s'.threads && (Works(s'.threads[t], sid) || s'.threads[t].Create?)
      ensures Phase(s'.w, s'.threads[t])
    {
      if t in s.threads {
        PhaseIsStable(s.w, s'.w, s.threads[t], sid);
      } else {
        ThreadsAfter(s, e, t);
        RequestHasPhase(s, s'.w, e.request, sid);
      }
    }
    if Synced(s.w, sid) { UntouchedStaysSynced(s.w, s'.w, sid); }
  }

  lemma RequestHasPhase(s: System, w': World, pc: Pc, sid: Id)
    requires IsRequest(pc) && Agreed(s, sid) && Untouched(s.w, w', sid)
    requires Works(pc, sid) ==> !Busy(s, sid, AnyWork)
    requires Works(pc, sid) || pc.Create?
    ensures Phase(w', pc)
  {
    hide Conserved, AtMostOne;
  }

  lemma UntouchedStaysSynced(w: World, w': World, sid: Id)
    requires Untouched(w, w', sid) && Synced(w, sid)
    ensures Synced(w', sid)
  {}

  lemma QuietStays(s: System, e: Event, t: Id)
    requires t in s.threads && (e.Move? ==> e.tid !in s.threads)
    ensures t in Apply(s, e).threads && Apply(s, e).threads[t] == s.threads[t]
  {}

  lemma ApplyAgrees(s: System, e: Event, sid: Id)
    requires Agreed(s, sid) && Disciplined(s, e, sid)
    ensures Agreed(Apply(s, e), sid)
  {
    if e.Move? && e.tid in s.threads {
      var s' := Apply(s, e);
      ApplyConserves(s, e);
      StaysApart(s, e, sid, AnyWork);
      MovePhases(s, e.tid, e.fate, sid);
      if !Busy(s', sid, AnyWork) { MoveSyncs(s, e.tid, e.fate, sid); }
      hide Apply, Phase, Synced, Works, Busy, Conserved;
    } else {
      QuietAgrees(s, e, sid);
    }
  }

  lemma {:induction false} RunAgrees(s: System, es: seq<Event>, sid: Id)
    requires Agreed(s, sid) && DisciplinedRun(s, es, sid)
    ensures Agreed(Run(s, es), sid)
    decreases |es|
  {
    if es != [] {
      var init := es[..|es| - 1];
      assert forall k | 0 <= k < |init| :: init[..k] == es[..k];
      RunAgrees(s, init, sid);
      assert Disciplined(Run(s, init), es[|es| - 1], sid);
      ApplyAgrees(Run(s, init), es[|es| - 1], sid);
    }
  }

  // ---------- the main results ----------

  /**
   * Whatever happens to all other subscriptions: as long as this one's own work is disciplined, it
   * has the same quota, credit limit and expiry on both sides whenever no work on it is under way.
   */
  lemma PanelAndNodeAgree(clock: int, es: seq<Event>, sid: Id)
    requires DisciplinedRun(Fresh(clock), es, sid)
    requires var s := Run(Fresh(clock), es); Live(s.w, sid) && !Busy(s, sid, AnyWork)
    ensures var w := Run(Fresh(clock), es).w; var row := w.db.subs[sid]; var t := w.fleet[row.At()];
      t.quota == row.quota && t.credit == row.credit && t.expire == row.endAt
  {
    RunAgrees(Fresh(clock), es, sid);
  }

  /**
   * And the discipline is exact: when work ends after a disciplined run, the two sides agree if and
   * only if its last step was fair too, or a renewal computed the very expiry that was on record.
   */
  lemma AgreementEndsWithDiscipline(clock: int, es: seq<Event>, tid: Id, f: Fate, sid: Id)
    requires DisciplinedRun(Fresh(clock), es, sid)
    requires var s := Run(Fresh(clock), es); var s' := Apply(s, Move(tid, f));
      tid in s.threads && Works(s.threads[tid], sid) && tid !in s'.threads && Live(s'.w, sid)
    ensures var s := Run(Fresh(clock), es); var s' := Apply(s, Move(tid, f)); var row := s'.w.db.subs[sid];
      Matches(s'.w.fleet[row.At()], row.quota, row.credit, row.endAt)
      <==> Fair(s.threads[tid], f) || SameEnd(s.w, s.threads[tid], sid)
  {
    var s := Run(Fresh(clock), es);
    RunAgrees(Fresh(clock), es, sid);
    assert SoundThread(s.w, s.threads[tid]) && Charged(s.w, s.threads[tid]);
    WorkerAgrees(s.w, s.threads[tid], f, sid);
  }

  // ---------- why the discipline is needed ----------

  /** Two increments are on record and two SetQuota calls are about to leave, the older value last. */
  ghost predicate Overtaking(s: System, sid: Id, older: Id, newer: Id) {
    && older in s.threads && newer in s.threads && older != newer && Live(s.w, sid)
    && s.threads[older].Topup? && s.threads[older].topup.CallSet? && s.threads[older].sid == sid
    && s.threads[newer].Topup? && s.threads[newer].topup.CallSet? && s.threads[newer].sid == sid
    && s.threads[older].row.At() == s.threads[newer].row.At() == s.w.db.subs[sid].At()
    && s.threads[older].topup.quota < s.threads[newer].topup.quota == s.w.db.subs[sid].quota
  }

  /** Overlapping top-ups can leave the node with less than the panel has on record, though nothing fails. */
  lemma OverlappingTopupsDisagree(s: System, sid: Id, older: Id, newer: Id)
    requires Overtaking(s, sid, older, newer)
    ensures var w := Apply(Apply(s, Move(newer, FINE)), Move(older, FINE)).w;
      Live(w, sid) && w.fleet[w.db.subs[sid].At()].quota == s.threads[older].topup.quota < w.db.subs[sid].quota
  {
    var s1 := Apply(s, Move(newer, FINE));
    assert s1.threads[older] == s.threads[older] && s1.w.db == s.w.db && s.w.db.subs[sid].At() in s1.w.fleet;
    hide CreateStep, DeleteStep, PurgeStep, ToggleStep, LifecycleStep, RenewStep;
  }

  /** A top-up whose SetQuota call is about to leave with the quota on record. */
  ghost predicate Calling(s: System, sid: Id, t: Id) {
    && t in s.threads && Live(s.w, sid) && s.threads[t].Topup? && s.threads[t].topup.CallSet? && s.threads[t].sid == sid
    && s.threads[t].row.At() == s.w.db.subs[sid].At() && s.threads[t].topup.quota == s.w.db.subs[sid].quota
  }

  lemma LostReplyTakesBack(s: System, t: Id)
    requires t in s.threads && s.threads[t].Topup? && s.threads[t].topup.CallSet?
    ensures var pc := s.threads[t]; var f := FINE.(reply := Lost);
      Apply(s, Move(t, f)) == System(
        Configure(s.w, pc.row.At(), pc.topup.quota, pc.row.credit, pc.row.endAt, f),
        s.threads[t := Topup(pc.sid, pc.row, TakeBack(pc.topup.bytes, pc.topup.ticket, pc.row.At() in s.w.fleet))])
  {
    hide CreateStep, DeleteStep, PurgeStep, ToggleStep, LifecycleStep, RenewStep, Configure;
  }

  /**
   * So can a reply that is lost: the node keeps an increment that the panel takes back. If taking
   * back fails as well, both sides keep it.
   */
  lemma LostReplyDisagrees(s: System, sid: Id, t: Id, f: Fate)
    requires Conserved(s) && Calling(s, sid, t)
    ensures var s' := Apply(Apply(s, Move(t, FINE.(reply := Lost))), Move(t, f));
      && Live(s'.w, sid) && t !in s'.threads
      && s'.w.fleet[s'.w.db.subs[sid].At()].quota
         == s'.w.db.subs[sid].quota + if f.db then s.threads[t].topup.bytes else 0
  {
    var s1 := Apply(s, Move(t, FINE.(reply := Lost)));
    LostReplyTakesBack(s, t);
    ApplyConserves(s, Move(t, FINE.(reply := Lost)));
    hide Apply, Conserved;
    TakeBackEnds(s1, sid, t, f);
  }

  lemma TakeBackEnds(s: System, sid: Id, t: Id, f: Fate)
    requires Conserved(s) && t in s.threads && sid in s.w.db.subs
    requires s.threads[t].Topup? && s.threads[t].topup.TakeBack? && s.threads[t].sid == sid
    ensures var s' := Apply(s, Move(t, f));
      && t !in s'.threads && s'.w.fleet == s.w.fleet
      && sid in s'.w.db.subs && s'.w.db.subs[sid].At() == s.w.db.subs[sid].At()
      && s'.w.db.subs[sid].quota == s.w.db.subs[sid].quota - if f.db then s.threads[t].topup.bytes else 0
  {
    hide CreateStep, DeleteStep, PurgeStep, ToggleStep, LifecycleStep, RenewStep;
    var pc := s.threads[t];
    assert Charged(s.w, pc);
    UnbuyBalances(s.w, sid, pc.topup.bytes, pc.topup.ticket);
    hide SoundWorld, Balanced;
  }

  /** Both situations are reached from an empty installation without any failure. */
  lemma DisagreementsAreReachable(clock: int)
    ensures exists es, sid, t :: Scenarios.Smooth(es) && Calling(Run(Fresh(clock), es), sid, t)
    ensures exists es, sid, older, newer :: Scenarios.Smooth(es) && Overtaking(Run(Fresh(clock), es), sid, older, newer)
  {
    var h, s, sid := Scenarios.Stock(clock, 30);
    hide Run;
    var h1, s1 := Scenarios.TopupComesIn(Fresh(clock), h, 5, sid, 10);
    var h2, s2 := Scenarios.TopupReadsBack(Fresh(clock), h1, 5);
    assert Calling(s2, sid, 5);
    var h3, s3 := Scenarios.TopupComesIn(Fresh(clock), h2, 6, sid, 20);
    var h4, s4 := Scenarios.TopupReadsBack(Fresh(clock), h3, 6);
    assert Overtaking(s4, sid, 5, 6);
  }
}
