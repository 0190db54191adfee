/**
 * No level goes unnoticed: as long as a subscription's top-ups do not overlap one another or its
 * polls, and an announced level is stored, its notified_threshold is never below the level of its
 * own usage. If its top-ups and renewals do not overlap either, a top-up's re-arm can only lower
 * it. Any call and any other statement may fail, and all other subscriptions are free.
 */
module Coverage {
  import opened Domain
  import opened Database
  import opened Protocol
  import opened Structure
  import opened Overlap
  import opened Threshold
  import Scenarios

  /** A top-up that has read the row: its re-arm will rely on the usage that it found there. */
  predicate Relies(pc: Pc, sid: Id) { TopsUp(pc, sid) && !pc.LoadSub? }

  predicate Relied(s: System, sid: Id) { exists t :: t in s.threads && Relies(s.threads[t], sid) }

  /** The premise, for one subscription; `kind` says which of its work does not overlap. */
  predicate Calm(s: System, e: Event, sid: Id, kind: Kind) {
    && Apart(s, e, sid, kind)
    && (e.Observe? && e.sid == sid && sid in s.w.db.subs ==>
          && !Relied(s, sid) && SameGauge(e.snap, s.w.db.subs[sid]) && StoresLevel(e.snap, e.usage, e.writes))
  }

  /** What a poll decides on. */
  predicate SameGauge(snap: Row, row: Row) { snap.quota == row.quota && snap.notified == row.notified }

  /** If a level is announced and the usage behind it is stored, the level is stored, too. */
  predicate StoresLevel(snap: Row, u: Usage, wr: Writes) {
    Level(u.used, snap.quota) > snap.notified && wr.used ==> wr.notified
  }

  ghost predicate CalmRun(s: System, es: seq<Event>, sid: Id, kind: Kind) {
    forall k | 0 <= k < |es| :: Calm(Run(s, es[..k]), es[k], sid, kind)
  }

  ghost predicate Covered(row: Row) { row.quota > 0 && row.notified >= Level(row.used, row.quota) }

  /** The threshold also covers the quota that a rollback of this increment would restore. */
  ghost predicate CoversRollback(row: Row, bytes: int) {
    row.quota - bytes > 0 && row.notified >= Level(row.used, row.quota - bytes)
  }

  /** The usage found is still the row's, unless a renewal has zeroed it. */
  ghost predicate SameUsed(snap: Row, row: Row, kind: Kind) {
    snap.used == row.used || (kind.Topups? && row.used == 0)
  }

  ghost predicate TopupCovered(row: Row, snap: Row, t: TopupPhase, kind: Kind) {
    && SameUsed(snap, row, kind)
    && match t
       case Add(_) => true
       case ReadBack(bytes, _) => CoversRollback(row, bytes)
       case CallSet(bytes, _, quota) => CoversRollback(row, bytes) && quota == row.quota
       case TakeBack(bytes, _, _) => CoversRollback(row, bytes)
       case CallResume(quota) => quota == row.quota
       case WriteStatus(quota) => quota == row.quota
       case WriteNotified(quota) => quota == row.quota
  }

  ghost predicate CoverPhase(w: World, pc: Pc, kind: Kind) {
    match pc
    case Create(CallCreate(draft)) => draft.used == 0 && draft.notified == 0
    case Create(Insert(row, _)) => row.quota > 0 && row.used == 0 && row.notified == 0
    case LoadNode(sid, row, task) => task.AddBytes? && sid in w.db.subs ==> SameUsed(row, w.db.subs[sid], kind)
    case Topup(sid, row, t) => sid in w.db.subs ==> TopupCovered(w.db.subs[sid], row, t, kind)
    case _ => true
  }

  predicate Concerns(pc: Pc, sid: Id) { TopsUp(pc, sid) || pc.Create? }

  ghost predicate Covering(s: System, sid: Id, kind: Kind) {
    && Sound(s) && AtMostOne(s, sid, kind)
    && (sid in s.w.db.subs ==> Covered(s.w.db.subs[sid]))
    && (forall t | t in s.threads && Concerns(s.threads[t], sid) :: CoverPhase(s.w, s.threads[t], kind))
  }

  // ---------- the top-up's own step ----------

  lemma UnusedIsLevelZero(quota: int)
    requires quota > 0
    ensures Level(0, quota) == 0
  {
    LevelIsExact(0, quota, 80);
  }

  lemma TopupCovers(w: World, sid: Id, row: Row, t: TopupPhase, f: Fate, kind: Kind)
    requires sid in w.db.subs && Covered(w.db.subs[sid]) && TopupCovered(w.db.subs[sid], row, t, kind)
    requires t.ReadBack? || t.CallSet? || t.TakeBack? ==> t.bytes > 0
    ensures var o := TopupStep(w, sid, row, t, f);
      && sid in o.world.db.subs && Covered(o.world.db.subs[sid])
      && (o.pc.Some? ==> CoverPhase(o.world, o.pc.value, kind))
  {
    hide Level;
    var was := w.db.subs[sid];
    if t.Add? && t.bytes > 0 {
      LevelIsAntitone(was.used, was.quota + t.bytes, was.quota);
    } else if t.WriteNotified? {
      UnusedIsLevelZero(was.quota);
      LevelIsKnown(row.used, was.quota);
    }
  }

  lemma LevelIsKnown(used: int, quota: int)
    ensures Level(used, quota) >= 0
  {}

  // ---------- the other steps ----------

  /** The usage, the threshold and the quota are as before, or a renewal has zeroed the first two. */
  ghost predicate MeterKept(w: World, w': World, sid: Id, kind: Kind) {
    sid in w'.db.subs ==>
      && sid in w.db.subs && w'.db.subs[sid].quota == w.db.subs[sid].quota
      && ((w'.db.subs[sid].used == w.db.subs[sid].used && w'.db.subs[sid].notified == w.db.subs[sid].notified)
          || (kind.Topups? && w'.db.subs[sid].used == w'.db.subs[sid].notified == 0))
  }

  lemma ToggleKeepsMeters(w: World, customer: Id, enable: bool, t: Toggling, f: Fate, sid: Id, kind: Kind)
    ensures MeterKept(w, ToggleStep(w, customer, enable, t, f).world, sid, kind)
  {}

  lemma RenewKeepsMeter(w: World, q: Id, row: Row, p: RenewPhase, f: Fate, sid: Id, kind: Kind)
    requires q == sid ==> kind.Topups?
    ensures MeterKept(w, RenewStep(w, q, row, p, f).world, sid, kind)
  {}

  lemma OthersKeepMeter(w: World, pc: Pc, f: Fate, sid: Id, kind: Kind)
    requires !kind.Renewals? && !Does(pc, sid, kind) && sid < w.next
    ensures MeterKept(w, Next(w, pc, f).world, sid, kind)
  {
    if pc.Topup? { TopupTouchesItsOwn(w, pc.sid, pc.row, pc.topup, f); hide TopupStep; }
    else if pc.Renew? { RenewKeepsMeter(w, pc.sid, pc.row, pc.renew, f, sid, kind); hide RenewStep; }
    else if pc.Create? { CreateTouchesNone(w, pc.creating, f); hide CreateStep; }
    else if pc.Toggle? { ToggleKeepsMeters(w, pc.customer, pc.enable, pc.toggling, f, sid, kind); hide ToggleStep; }
  }

  lemma KeptStaysCovered(w: World, w': World, sid: Id, kind: Kind)
    requires MeterKept(w, w', sid, kind) && sid in w'.db.subs && (sid in w.db.subs ==> Covered(w.db.subs[sid]))
    ensures Covered(w'.db.subs[sid])
  {
    if sid in w.db.subs { UnusedIsLevelZero(w.db.subs[sid].quota); }
    hide Level;
  }

  /** A row that a step stores is covered; any other is covered by its top-up or left alone. */
  lemma NextCovers(w: World, pc: Pc, f: Fate, sid: Id, kind: Kind)
    requires SoundWorld(w) && SoundThread(w, pc) && !kind.Renewals?
    requires Concerns(pc, sid) ==> CoverPhase(w, pc, kind)
    requires sid in w.db.subs ==> Covered(w.db.subs[sid])
    requires sid in Next(w, pc, f).world.db.subs
    ensures Covered(Next(w, pc, f).world.db.subs[sid])
  {
    IdsAreBelowNext(w);
    if pc.Create? && pc.creating.Insert? {
      StoredIsCovered(w, pc.creating.row, pc.creating.key, f, sid);
      hide Next;
    } else if pc.Topup? && pc.sid == sid {
      TopupIsSteady(w, sid, pc.row, pc.topup, f);
      TopupCovers(w, sid, pc.row, pc.topup, f, kind);
      hide TopupStep;
    } else {
      if w.next <= sid { NextRows(w, pc, f, sid); }
      if TopsUp(pc, sid) { LoadingKeepsMeter(w, pc, f, sid); } else { OthersKeepMeter(w, pc, f, sid, Topups); }
      hide Next;
      KeptStaysCovered(w, Next(w, pc, f).world, sid, Topups);
    }
  }

  lemma StoredIsCovered(w: World, row: Row, key: Id, f: Fate, sid: Id)
    requires row.quota > 0 && row.used == 0 && row.notified == 0 && (sid in w.db.subs ==> Covered(w.db.subs[sid]))
    requires sid in CreateStep(w, Insert(row, key), f).world.db.subs
    ensures Covered(CreateStep(w, Insert(row, key), f).world.db.subs[sid])
  {
    UnusedIsLevelZero(row.quota);
    hide Level;
  }

  lemma LoadingKeepsMeter(w: World, pc: Pc, f: Fate, sid: Id)
    requires pc.LoadSub? || pc.LoadNode?
    ensures MeterKept(w, Next(w, pc, f).world, sid, Topups)
  {}

  lemma NextCoverPhase(w: World, pc: Pc, f: Fate, sid: Id, kind: Kind)
    requires SoundThread(w, pc)
    requires Concerns(pc, sid) ==> CoverPhase(w, pc, kind)
    requires sid in w.db.subs ==> Covered(w.db.subs[sid])
    ensures var o := Next(w, pc, f); o.pc.Some? && Concerns(o.pc.value, sid) ==> CoverPhase(o.world, o.pc.value, kind)
  {
    WorkBegan(w, pc, f, sid, Topups);
    hide CreateStep, TopupStep, RenewStep, ToggleStep, LifecycleStep, Level;
    match pc
    case Create(c) => CreateCoverPhase(w, c, f, kind);
    case Topup(_, row, t) => TopupCoversPhase(w, pc.sid, row, t, f, sid, kind);
    case Renew(_, row, p) => RenewStays(w, pc.sid, row, p, f);
    case Toggle(c, enable, t) => ToggleStays(w, c, enable, t, f);
    case Lifecycle(_, row, target, acked) => LifecycleStays(w, pc.sid, row, target, acked, f);
    case _ =>
  }

  lemma TopupCoversPhase(w: World, q: Id, row: Row, t: TopupPhase, f: Fate, sid: Id, kind: Kind)
    requires SoundThread(w, Topup(q, row, t))
    requires q == sid ==> CoverPhase(w, Topup(q, row, t), kind)
    requires sid in w.db.subs ==> Covered(w.db.subs[sid])
    ensures var o := TopupStep(w, q, row, t, f);
      o.pc.Some? && Concerns(o.pc.value, sid) ==> CoverPhase(o.world, o.pc.value, kind)
  {
    TopupIsSteady(w, q, row, t, f);
    TopupStays(w, q, row, t, f);
    if q == sid && sid in w.db.subs { TopupCovers(w, sid, row, t, f, kind); }
    hide TopupStep, SoundThread;
  }

  lemma CreateCoverPhase(w: World, c: Creating, f: Fate, kind: Kind)
    requires SoundCreating(w, c) && CoverPhase(w, Create(c), kind)
    ensures var o := CreateStep(w, c, f); o.pc.Some? ==> CoverPhase(o.world, o.pc.value, kind)
  {}

  lemma CoverPhaseIsStable(w: World, w': World, pc: Pc, sid: Id, kind: Kind)
    requires CoverPhase(w, pc, kind) && Concerns(pc, sid)
    requires Relies(pc, sid) ==> MeterKept(w, w', sid, kind)
    ensures CoverPhase(w', pc, kind)
  {
    if pc.Topup? && sid in w'.db.subs && sid in w.db.subs {
      var row := w'.db.subs[sid];
      if pc.topup.ReadBack? || pc.topup.CallSet? || pc.topup.TakeBack? {
        if row.quota > pc.topup.bytes { UnusedIsLevelZero(row.quota - pc.topup.bytes); }
      }
    }
    hide Level;
  }

  // ---------- events ----------

  lemma MoveKeepsCoverPhase(s: System, tid: Id, f: Fate, t: Id, sid: Id, kind: Kind)
    requires Covering(s, sid, kind) && !kind.Renewals?
    requires tid in s.threads && t in s.threads && t != tid && Concerns(s.threads[t], sid)
    ensures CoverPhase(Next(s.w, s.threads[tid], f).world, s.threads[t], kind)
  {
    var pc, other := s.threads[tid], s.threads[t];
    assert SoundThread(s.w, other);
    if Relies(other, sid) {
      assert !Does(pc, sid, kind);
      OthersKeepMeter(s.w, pc, f, sid, kind);
    }
    hide Next;
    CoverPhaseIsStable(s.w, Next(s.w, pc, f).world, other, sid, kind);
  }

  lemma MoveCovers(s: System, tid: Id, f: Fate, sid: Id, kind: Kind)
    requires Covering(s, sid, kind) && !kind.Renewals? && tid in s.threads
    ensures var s' := Apply(s, Move(tid, f));
      && (sid in s'.w.db.subs ==> Covered(s'.w.db.subs[sid]))
      && (forall t | t in s'.threads && Concerns(s'.threads[t], sid) :: CoverPhase(s'.w, s'.threads[t], kind))
  {
    var s' := Apply(s, Move(tid, f));
    var pc := s.threads[tid];
    assert SoundThread(s.w, pc);
    NextCoverPhase(s.w, pc, f, sid, kind);
    if sid in s'.w.db.subs { NextCovers(s.w, pc, f, sid, kind); }
    hide Next, CoverPhase, Covered, Sound, Concerns;
    forall t | t in s'.threads && Concerns(s'.threads[t], sid) ensures CoverPhase(s'.w, s'.threads[t], kind) {
      if t != tid { MoveKeepsCoverPhase(s, tid, f, t, sid, kind); }
    }
  }

  /** Another subscription's poll leaves the row alone. */
  lemma ObserveKeepsMeter(s: System, e: Event, sid: Id, kind: Kind)
    requires e.Observe? && e.sid != sid
    ensures MeterKept(s.w, Apply(s, e).w, sid, kind)
  {}

  /** A poll that decides on the row as it is keeps it covered exactly when the level is stored. */
  lemma ObserveCovers(w: World, sid: Id, snap: Row, u: Usage, wr: Writes)
    requires sid in w.db.subs && Covered(w.db.subs[sid]) && SameGauge(snap, w.db.subs[sid])
    ensures sid in ObserveRow(w, sid, snap, u, wr).db.subs
    ensures Covered(ObserveRow(w, sid, snap, u, wr).db.subs[sid]) <==> StoresLevel(snap, u, wr)
  {
    hide Level, Notices;
  }

  /** An event that moves no thread. */
  lemma QuietCovers(s: System, e: Event, sid: Id, kind: Kind)
    requires Covering(s, sid, kind) && Calm(s, e, sid, kind) && (e.Move? ==> e.tid !in s.threads)
    ensures var s' := Apply(s, e);
      && (sid in s'.w.db.subs ==> Covered(s'.w.db.subs[sid]))
      && (forall t | t in s'.threads && Concerns(s'.threads[t], sid) :: CoverPhase(s'.w, s'.threads[t], kind))
  {
    var s' := Apply(s, e);
    if e.Observe? && e.sid == sid {
      if sid in s.w.db.subs { ObserveCovers(s.w, sid, e.snap, e.usage, e.writes); }
      hide ObserveRow, Covered, Sound;
    } else {
      if e.Observe? { ObserveKeepsMeter(s, e, sid, kind); } else { QuietKeepsMeters(s, e, sid, kind); }
      hide Apply, Sound;
      if sid in s'.w.db.subs { KeptStaysCovered(s.w, s'.w, sid, kind); }
    }
    hide Next, Covered;
    forall t | t in s'.threads && Concerns(s'.threads[t], sid) ensures CoverPhase(s'.w, s'.threads[t], kind) {
      ThreadsAfter(s, e, t);
      if t in s.threads { CoverPhaseIsStable(s.w, s'.w, s.threads[t], sid, kind); }
    }
  }

  lemma QuietKeepsMeters(s: System, e: Event, sid: Id, kind: Kind)
    requires !e.Observe? && (e.Move? ==> e.tid !in s.threads)
    ensures MeterKept(s.w, Apply(s, e).w, sid, kind)
  {}

  lemma ApplyCovers(s: System, e: Event, sid: Id, kind: Kind)
    requires Covering(s, sid, kind) && Calm(s, e, sid, kind) && !kind.Renewals?
    ensures Covering(Apply(s, e), sid, kind)
  {
    hide Apply, Sound, Covered, CoverPhase;
    ApplyKeeps(s, e);
    StaysApart(s, e, sid, kind);
    if e.Move? && e.tid in s.threads { MoveCovers(s, e.tid, e.fate, sid, kind); } else { QuietCovers(s, e, sid, kind); }
  }

  lemma {:induction false} RunCovers(s: System, es: seq<Event>, sid: Id, kind: Kind)
    requires Covering(s, sid, kind) && CalmRun(s, es, sid, kind) && !kind.Renewals?
    ensures Covering(Run(s, es), sid, kind)
    decreases |es|
  {
    if es != [] {
      var init := es[..|es| - 1];
      assert forall k | 0 <= k < |init| :: init[..k] == es[..k];
      RunCovers(s, init, sid, kind);
      assert Calm(Run(s, init), es[|es| - 1], sid, kind);
      ApplyCovers(Run(s, init), es[|es| - 1], sid, kind);
    }
  }

  // ---------- the main results ----------

  /** Renewals may overlap anything. */
  lemma NoLevelGoesUnnoticed(clock: int, es: seq<Event>, sid: Id)
    requires CalmRun(Fresh(clock), es, sid, Topups) && sid in Run(Fresh(clock), es).w.db.subs
    ensures var row := Run(Fresh(clock), es).w.db.subs[sid]; row.notified >= Level(row.used, row.quota)
  {
    RunCovers(Fresh(clock), es, sid, Topups);
  }

  /**
   * When renewals do not overlap top-ups either, a top-up's re-arm lowers notified_threshold or
   * leaves it, and if stored, it is the row's own level.
   */
  lemma RearmNeverRaises(clock: int, es: seq<Event>, tid: Id, f: Fate, sid: Id)
    requires CalmRun(Fresh(clock), es, sid, AnyWork)
    requires var s := Run(Fresh(clock), es); Rearming(s, tid, sid)
    ensures var s := Run(Fresh(clock), es); var s' := Apply(s, Move(tid, f));
      && sid in s'.w.db.subs && s'.w.db.subs[sid].notified <= s.w.db.subs[sid].notified
      && s'.w.db.subs[sid].notified
         == if f.db then Level(s'.w.db.subs[sid].used, s'.w.db.subs[sid].quota) else s.w.db.subs[sid].notified
  {
    RunCovers(Fresh(clock), es, sid, AnyWork);
    hide *;
    CoveredRearm(Run(Fresh(clock), es), tid, f, sid);
  }

  /** A top-up of a stored row is about to re-arm. */
  predicate Rearming(s: System, tid: Id, sid: Id) {
    && tid in s.threads && s.threads[tid].Topup? && s.threads[tid].topup.WriteNotified? && s.threads[tid].sid == sid
    && sid in s.w.db.subs
  }

  lemma CoveredRearm(s: System, tid: Id, f: Fate, sid: Id)
    requires Covering(s, sid, AnyWork) && Rearming(s, tid, sid)
    ensures var s' := Apply(s, Move(tid, f));
      && sid in s'.w.db.subs && s'.w.db.subs[sid].notified <= s.w.db.subs[sid].notified
      && s'.w.db.subs[sid].notified
         == if f.db then Level(s'.w.db.subs[sid].used, s'.w.db.subs[sid].quota) else s.w.db.subs[sid].notified
  {
    assert CoverPhase(s.w, s.threads[tid], AnyWork);
    RearmWrites(s, tid, f, sid);
    hide Apply, Level;
  }

  /** What a re-arm leaves: the level of the usage that the top-up found and of the quota that it read back. */
  lemma RearmWrites(s: System, tid: Id, f: Fate, sid: Id)
    requires Rearming(s, tid, sid)
    ensures var s' := Apply(s, Move(tid, f)); var pc := s.threads[tid]; var row := s.w.db.subs[sid];
      s'.threads == s.threads - {tid} && sid in s'.w.db.subs
      && s'.w.db.subs[sid] == if f.db then row.(notified := Level(pc.row.used, pc.topup.quota)) else row
  {
    hide CreateStep, DeleteStep, PurgeStep, ToggleStep, LifecycleStep, RenewStep, Level;
  }

  // ---------- why the premises are needed ----------

  ghost predicate Uncovered(w: World, sid: Id) {
    sid in w.db.subs && w.db.subs[sid].notified < Level(w.db.subs[sid].used, w.db.subs[sid].quota)
  }

  const REFUSED := FINE.(reply := Refused)

  /** One top-up is about to re-arm, and another to share its increment. */
  ghost predicate Undercut(s: System, sid: Id, first: Id, second: Id) {
    && Rearming(s, first, sid) && second != first && second in s.threads && s.threads[second].Topup?
    && s.threads[second].sid == sid && s.threads[second].topup.CallSet?
    && s.threads[second].topup.ticket < |s.w.book.log| && s.threads[second].topup.bytes < s.w.db.subs[sid].quota
  }

  /**
   * Top-ups must not overlap: if the second one's quota is refused after the first one has re-armed
   * on it, the row is left uncovered exactly when the level counts for more at the smaller quota.
   */
  lemma OverlappingTopupsUncover(s: System, sid: Id, first: Id, second: Id)
    requires Undercut(s, sid, first, second)
    ensures var w := Apply(Apply(Apply(s, Move(first, FINE)), Move(second, REFUSED)), Move(second, FINE)).w;
      var row, a, b := s.w.db.subs[sid], s.threads[first], s.threads[second].topup;
      Uncovered(w, sid) <==> Level(a.row.used, a.topup.quota) < Level(row.used, row.quota - b.bytes)
  {
    RearmWrites(s, first, FINE, sid);
    var s1 := Apply(s, Move(first, FINE));
    RearmKeepsLog(s, first, sid);
    assert s1.threads[second] == s.threads[second];
    hide Apply, Level;
    RefusedTopupTakesBack(s1, sid, second);
  }

  lemma RearmKeepsLog(s: System, tid: Id, sid: Id)
    requires Rearming(s, tid, sid)
    ensures Apply(s, Move(tid, FINE)).w.book.log == s.w.book.log
  {
    hide CreateStep, DeleteStep, PurgeStep, ToggleStep, LifecycleStep, RenewStep, Level;
  }

  lemma RefusedTopupTakesBack(s: System, sid: Id, tid: Id)
    requires tid in s.threads && s.threads[tid].Topup? && s.threads[tid].sid == sid && s.threads[tid].topup.CallSet?
    requires s.threads[tid].topup.ticket < |s.w.book.log|
    requires sid in s.w.db.subs && s.threads[tid].topup.bytes < s.w.db.subs[sid].quota
    ensures var w := Apply(Apply(s, Move(tid, REFUSED)), Move(tid, FINE)).w; var row := s.w.db.subs[sid];
      sid in w.db.subs && w.db.subs[sid] == row.(quota := row.quota - s.threads[tid].topup.bytes)
  {
    hide CreateStep, DeleteStep, PurgeStep, ToggleStep, LifecycleStep, RenewStep;
    var t := s.threads[tid].topup;
    assert Apply(s, Move(tid, REFUSED))
        == s.(threads := s.threads[tid := Topup(sid, s.threads[tid].row, TakeBack(t.bytes, t.ticket, false))]);
  }

  /** Polls must not come between a top-up's read of the row and its re-arm. */
  lemma PollsInsideTopupsUncover(s: System, sid: Id, tid: Id, u: Usage)
    requires Rearming(s, tid, sid)
    ensures var row, pc := s.w.db.subs[sid], s.threads[tid];
      Uncovered(Apply(Apply(s, Observe(sid, row, u, ALL_WRITES)), Move(tid, FINE)).w, sid)
      <==> Level(pc.row.used, pc.topup.quota) < Level(u.used, row.quota)
  {
    var s1 := Apply(s, Observe(sid, s.w.db.subs[sid], u, ALL_WRITES));
    hide Level, Next, Notices;
    RearmWrites(s1, tid, FINE, sid);
  }

  /** And renewals must not come there for the re-arm never to raise the threshold. */
  lemma RenewalsInsideTopupsRaise(s: System, sid: Id, tid: Id)
    requires Rearming(s, tid, sid)
    ensures var row, pc, w := s.w.db.subs[sid], s.threads[tid], Apply(s, Move(tid, FINE)).w;
      w.db.subs[sid].notified > row.notified <==> Level(pc.row.used, pc.topup.quota) > row.notified
  {
    RearmWrites(s, tid, FINE, sid);
    hide Level;
  }

  /** A subscription of 100 bytes of which 90 have been seen. */
  lemma MostlyUsed(clock: int) returns (es: seq<Event>, s: System, sid: Id)
    ensures s == Run(Fresh(clock), es) && Scenarios.Smooth(es) && s.threads == map[] && Scenarios.Served(s.w, sid)
    ensures s.w.db.subs[sid].quota == 100 && s.w.db.subs[sid].used == 90
  {
    var h, s0, id := Scenarios.Stock(clock, 30);
    sid := id;
    es, s := Scenarios.Then(Fresh(clock), h, Observe(sid, s0.w.db.subs[sid], Usage(90, "active", 1), ALL_WRITES));
    hide Run, Level, Notices;
  }

  /** Another top-up starts and gets as far as its re-arm. */
  lemma TopupRearms(s0: System, es: seq<Event>, tid: Id, sid: Id, bytes: int) returns (es': seq<Event>, s': System)
    requires var s := Run(s0, es); tid !in s.threads && Scenarios.Served(s.w, sid) && s.w.db.subs[sid].quota >= 0
    requires Scenarios.Smooth(es) && bytes > 0
    ensures var s := Run(s0, es); var row := s.w.db.subs[sid];
      && s' == Run(s0, es') && Scenarios.Smooth(es') && Rearming(s', tid, sid) && Scenarios.Served(s'.w, sid)
      && s'.threads == s.threads[tid := Topup(sid, row, WriteNotified(row.quota + bytes))]
      && s'.w.db.subs[sid] == row.(quota := row.quota + bytes, status := "active")
  {
    hide Run;
    var h, s1 := Scenarios.TopupComesIn(s0, es, tid, sid, bytes);
    es', s' := Scenarios.TopupGoesOn(s0, h, tid);
  }

  /** All three situations are reached without any failure. */
  lemma UncoveringIsReachable(clock: int)
    ensures exists es, sid, tid :: Scenarios.Smooth(es) && InTheWay(Run(Fresh(clock), es), sid, tid)
    ensures exists es, sid, tid :: Scenarios.Smooth(es) && Overtaken(Run(Fresh(clock), es), sid, tid)
    ensures exists es, sid, first, second ::
            Scenarios.Smooth(es) && Undermined(Run(Fresh(clock), es), sid, first, second)
  {
    PollsCanBeInTheWay(clock);
    RenewalsCanOvertake(clock);
    TopupsCanUndermine(clock);
    hide *;
  }

  /** A poll can come in the way of a re-arm. */
  ghost predicate InTheWay(s: System, sid: Id, tid: Id) {
    Rearming(s, tid, sid)
    && exists u: Usage ::
         Level(s.threads[tid].row.used, s.threads[tid].topup.quota) < Level(u.used, s.w.db.subs[sid].quota)
  }

  /** A renewal has overtaken a re-arm. */
  ghost predicate Overtaken(s: System, sid: Id, tid: Id) {
    Rearming(s, tid, sid) && Level(s.threads[tid].row.used, s.threads[tid].topup.quota) > s.w.db.subs[sid].notified
  }

  ghost predicate Undermined(s: System, sid: Id, first: Id, second: Id) {
    Undercut(s, sid, first, second)
    && var row, a, b := s.w.db.subs[sid], s.threads[first], s.threads[second].topup;
       Level(a.row.used, a.topup.quota) < Level(row.used, row.quota - b.bytes)
  }

  lemma PollsCanBeInTheWay(clock: int)
    ensures exists es, sid, tid :: Scenarios.Smooth(es) && InTheWay(Run(Fresh(clock), es), sid, tid)
  {
    var h, s, sid := Scenarios.Stock(clock, 30);
    hide Run;
    var h1, s1 := TopupRearms(Fresh(clock), h, 5, sid, 1);
    UnusedIsLevelZero(101);
    LevelIsExact(90, 101, 80);
    hide Level;
    assert InTheWay(s1, sid, 5) by { assert Usage(90, "active", 1).used == 90; }
  }

  lemma RenewalsCanOvertake(clock: int)
    ensures exists es, sid, tid :: Scenarios.Smooth(es) && Overtaken(Run(Fresh(clock), es), sid, tid)
  {
    var h, s, sid := MostlyUsed(clock);
    hide Run;
    var h1, s1 := TopupRearms(Fresh(clock), h, 5, sid, 1);
    Scenarios.RenewalEnds(s1.w, sid, true, 0);
    var h2, s2 := Scenarios.Enter(Fresh(clock), h1, 6, LoadSub(sid, NewPeriod), Scenarios.Renewing(true, 0));
    LevelIsExact(90, 101, 80);
    hide Level, Alone;
    assert s2.threads[5] == s1.threads[5];
    assert Overtaken(s2, sid, 5);
  }

  lemma TopupsCanUndermine(clock: int)
    ensures exists es, sid, first, second ::
            Scenarios.Smooth(es) && Undermined(Run(Fresh(clock), es), sid, first, second)
  {
    var h, s, sid := MostlyUsed(clock);
    hide Run, Level;
    var h1, s1 := Scenarios.TopupComesIn(Fresh(clock), h, 5, sid, 1);
    var h2, s2 := Scenarios.TopupComesIn(Fresh(clock), h1, 6, sid, 1000);
    var h3, s3 := Scenarios.TopupReadsBack(Fresh(clock), h2, 6);
    var h4, s4 := Scenarios.TopupGoesOn(Fresh(clock), h3, 5);
    LevelIsExact(90, 1101, 80);
    LevelIsExact(90, 101, 80);
    assert Undermined(s4, sid, 5, 6);
  }
}
