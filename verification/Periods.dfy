/**
 * Period lockstep: a renewal resets the tenant first and bumps the panel's period last, so the
 * node's resets are the panel's periods plus the renewals under way plus those that broke off.
 */
module Periods {
  import opened Domain
  import opened Database
  import opened Protocol
  import opened Structure

  /** A renewal of the subscription whose reset has taken effect and that has not ended. */
  predicate Past(pc: Pc, sid: Id) {
    pc.Renew? && pc.sid == sid && (pc.renew.CallRenewed? || pc.renew.WriteRenewed?)
  }

  function Renewals(threads: map<Id, Pc>, sid: Id): set<Id> {
    set t | t in threads && Past(threads[t], sid)
  }

  function UnderWay(threads: map<Id, Pc>, sid: Id): nat { |Renewals(threads, sid)| }

  function Ahead(threads: map<Id, Pc>, spent: map<Id, nat>, sid: Id): nat {
    UnderWay(threads, sid) + Count(spent, sid)
  }

  ghost predicate InStep(s: System, sid: Id)
    requires sid in s.w.db.subs
  {
    var row := s.w.db.subs[sid];
    row.At() in s.w.fleet ==> s.w.fleet[row.At()].resets == row.period - 1 + Ahead(s.threads, s.w.book.spent, sid)
  }

  /** A tenant whose row is not stored yet has never been reset. */
  ghost predicate FirstPeriod(w: World, pc: Pc) {
    match pc
    case Create(CallCreate(draft)) => draft.period == 1
    case Create(Insert(row, _)) => row.period == 1 && (row.At() in w.fleet ==> w.fleet[row.At()].resets == 0)
    case _ => true
  }

  ghost predicate Lockstep(s: System) {
    && Sound(s)
    && (forall r | r in s.w.book.spent :: r < s.w.next)
    && (forall t | t in s.threads :: FirstPeriod(s.w, s.threads[t]))
    && (forall r | r in s.w.db.subs :: InStep(s, r))
  }

  // ---------- counting threads ----------

  function Bit(b: bool): nat { if b then 1 else 0 }

  lemma CountMoves(threads: map<Id, Pc>, tid: Id, pc': Option<Pc>, sid: Id)
    requires tid in threads
    ensures var threads' := if pc'.Some? then threads[tid := pc'.value] else threads - {tid};
      UnderWay(threads', sid)
      == UnderWay(threads, sid) - Bit(Past(threads[tid], sid)) + Bit(pc'.Some? && Past(pc'.value, sid))
  {
    var threads' := if pc'.Some? then threads[tid := pc'.value] else threads - {tid};
    var others := Renewals(threads - {tid}, sid);
    assert tid !in others;
    assert Renewals(threads, sid) == if Past(threads[tid], sid) then others + {tid} else others;
    assert Renewals(threads', sid) == if pc'.Some? && Past(pc'.value, sid) then others + {tid} else others;
  }

  lemma NoneUnderWay(s: System, sid: Id)
    requires Sound(s) && s.w.next <= sid
    ensures UnderWay(s.threads, sid) == 0
  {
    forall t | t in s.threads ensures !Past(s.threads[t], sid) { assert SoundThread(s.w, s.threads[t]); }
    assert Renewals(s.threads, sid) == {};
  }

  // ---------- what one step changes ----------

  /** For a subscription that stays: resets, period, and this thread's share of what is ahead. */
  ghost predicate StepsInStep(w: World, pc: Pc, o: Outcome) {
    forall r | r in w.db.subs && r in o.world.db.subs && w.db.subs[r].At() in o.world.fleet ::
        StepsInStepFor(w, pc, o, r)
  }

  ghost predicate StepsInStepFor(w: World, pc: Pc, o: Outcome, r: Id)
    requires r in w.db.subs && r in o.world.db.subs && w.db.subs[r].At() in o.world.fleet
  {
    var a := w.db.subs[r].At();
    && a in w.fleet && o.world.db.subs[r].At() == a
    && o.world.fleet[a].resets - w.fleet[a].resets
       == o.world.db.subs[r].period - w.db.subs[r].period
          + Bit(o.pc.Some? && Past(o.pc.value, r)) - Bit(Past(pc, r))
          + Count(o.world.book.spent, r) - Count(w.book.spent, r)
  }

  /** Steps without an effect on periods. */
  ghost predicate SamePeriods(w: World, w': World) {
    && w'.book.spent == w.book.spent
    && (forall a | a in w'.fleet && a in w.fleet :: w'.fleet[a].resets == w.fleet[a].resets)
    && (forall a | a in w'.fleet && a !in w.fleet :: a.tenant == w.next && w'.fleet[a].resets == 0)
    && (forall r | r in w'.db.subs && r in w.db.subs ::
          w'.db.subs[r].period == w.db.subs[r].period && w'.db.subs[r].At() == w.db.subs[r].At())
  }

  lemma TopupSavesPeriods(w: World, sid: Id, row: Row, t: TopupPhase, f: Fate)
    ensures SamePeriods(w, TopupStep(w, sid, row, t, f).world)
  {}

  lemma ToggleSavesPeriods(w: World, customer: Id, enable: bool, t: Toggling, f: Fate)
    ensures SamePeriods(w, ToggleStep(w, customer, enable, t, f).world)
  {}

  lemma CreateSavesPeriods(w: World, c: Creating, f: Fate)
    requires SoundWorld(w)
    ensures var o := CreateStep(w, c, f); SamePeriods(w, o.world) && (o.pc.Some? ==> o.pc.value.Create?)
  {
    CreateStays(w, c, f);
    if c.Insert? {
      IdsAreBelowNext(w);
      hide SoundWorld;
      StoredSavesPeriods(w, c.row);
    }
    hide Stored, SoundWorld;
  }

  lemma StoredSavesPeriods(w: World, row: Row)
    requires forall r | r in w.db.subs :: r < w.next
    ensures SamePeriods(w, Stored(w, row))
  {}

  lemma OthersSavePeriods(w: World, pc: Pc, f: Fate)
    requires SoundWorld(w) && !pc.Renew?
    ensures var o := Next(w, pc, f); SamePeriods(w, o.world)
  {
    hide CreateStep, TopupStep, ToggleStep, SoundWorld;
    match pc
    case Create(c) => CreateSavesPeriods(w, c, f);
    case Topup(sid, row, t) => TopupSavesPeriods(w, sid, row, t, f);
    case Toggle(c, enable, t) => ToggleSavesPeriods(w, c, enable, t, f);
    case _ =>
  }

  /** Only a renewal is under way, and it begins with its load. */
  lemma OthersAreNotPast(w: World, pc: Pc, f: Fate, sid: Id)
    requires !pc.Renew?
    ensures var o := Next(w, pc, f); o.pc.Some? ==> !Past(o.pc.value, sid)
  {
    hide CreateStep, TopupStep, ToggleStep, LifecycleStep;
    match pc
    case Create(c) => CreateStays(w, c, f);
    case Topup(sid, row, t) => TopupStays(w, sid, row, t, f);
    case Toggle(c, enable, t) => ToggleStays(w, c, enable, t, f);
    case Lifecycle(sid, row, target, acked) => LifecycleStays(w, sid, row, target, acked, f);
    case _ =>
  }

  lemma RenewStepsInStep(w: World, sid: Id, row: Row, p: RenewPhase, f: Fate)
    requires SoundWorld(w) && Snapshot(w, sid, row)
    ensures StepsInStep(w, Renew(sid, row, p), RenewStep(w, sid, row, p, f))
  {
    forall r | r in w.db.subs && r != sid ensures w.db.subs[r].At() != row.At() { assert SoundRow(w, r, w.db.subs[r]); }
    hide SoundWorld, SoundRow;
    var o := RenewStep(w, sid, row, p, f);
    forall r | r in w.db.subs && r in o.world.db.subs && w.db.subs[r].At() in o.world.fleet
      ensures StepsInStepFor(w, Renew(sid, row, p), o, r)
    {
      RenewStepsFor(w, sid, row, p, f, r);
    }
    hide RenewStep;
  }

  lemma RenewStepsFor(w: World, sid: Id, row: Row, p: RenewPhase, f: Fate, r: Id)
    requires Snapshot(w, sid, row) && r in w.db.subs && (r != sid ==> w.db.subs[r].At() != row.At())
    requires var o := RenewStep(w, sid, row, p, f); r in o.world.db.subs && w.db.subs[r].At() in o.world.fleet
    ensures StepsInStepFor(w, Renew(sid, row, p), RenewStep(w, sid, row, p, f), r)
  {}

  lemma NextStepsInStep(w: World, pc: Pc, f: Fate)
    requires SoundWorld(w) && SoundThread(w, pc)
    ensures StepsInStep(w, pc, Next(w, pc, f))
  {
    if pc.Renew? {
      RenewStepsInStep(w, pc.sid, pc.row, pc.renew, f);
    } else {
      OthersSavePeriods(w, pc, f);
      forall r ensures Next(w, pc, f).pc.Some? ==> !Past(Next(w, pc, f).pc.value, r) { OthersAreNotPast(w, pc, f, r); }
      forall r | r in w.db.subs ensures w.db.subs[r].tenant < w.next { assert SoundRow(w, r, w.db.subs[r]); }
      hide Next, SoundWorld, SoundThread;
    }
  }

  /** A thread resets only the tenant of a stored row. */
  lemma FirstPeriodIsStable(w: World, other: Pc, f: Fate, pc: Pc)
    requires SoundWorld(w) && SoundThread(w, pc) && SoundThread(w, other) && FirstPeriod(w, pc)
    ensures FirstPeriod(Next(w, other, f).world, pc)
  {
    if other.Renew? {
      RenewResetsOwned(w, other.sid, other.row, other.renew, f);
    } else {
      OthersSavePeriods(w, other, f);
    }
    hide Next, SoundWorld;
  }

  lemma RenewResetsOwned(w: World, sid: Id, row: Row, p: RenewPhase, f: Fate)
    ensures var w' := RenewStep(w, sid, row, p, f).world;
      && w'.fleet.Keys == w.fleet.Keys
      && forall a | a in w.fleet && a != row.At() :: w'.fleet[a].resets == w.fleet[a].resets
  {}

  lemma NextFirstPeriod(w: World, pc: Pc, f: Fate)
    requires FirstPeriod(w, pc)
    ensures var o := Next(w, pc, f); o.pc.Some? ==> FirstPeriod(o.world, o.pc.value)
  {
    if !Comes(pc) { NextIsSteady(w, pc, f); hide Next; }
  }

  lemma SpentIds(w: World, pc: Pc, f: Fate)
    requires SoundWorld(w) && SoundThread(w, pc) && (forall r | r in w.book.spent :: r < w.next)
    ensures forall r | r in Next(w, pc, f).world.book.spent :: r < w.next
  {
    if pc.Renew? {} else { OthersSavePeriods(w, pc, f); hide Next; }
  }

  // ---------- events ----------

  lemma MoveIsLockstep(s: System, tid: Id, f: Fate)
    requires Lockstep(s) && tid in s.threads
    ensures Lockstep(Apply(s, Move(tid, f)))
  {
    var s' := Apply(s, Move(tid, f));
    var pc := s.threads[tid];
    var o := Next(s.w, pc, f);
    ApplyKeeps(s, Move(tid, f));
    NextStepsInStep(s.w, pc, f);
    SpentIds(s.w, pc, f);
    NextFirstPeriod(s.w, pc, f);
    forall t | t in s'.threads ensures FirstPeriod(s'.w, s'.threads[t]) {
      if t != tid { FirstPeriodIsStable(s.w, pc, f, s.threads[t]); }
    }
    forall r | r in s'.w.db.subs ensures InStep(s', r) {
      CountMoves(s.threads, tid, o.pc, r);
      if r in s.w.db.subs {
        assert InStep(s, r);
        OldRowStaysInStep(s, tid, o, r);
      } else {
        NewRowIsInStep(s, tid, f, r);
      }
    }
  }

  lemma OldRowStaysInStep(s: System, tid: Id, o: Outcome, r: Id)
    requires tid in s.threads && StepsInStep(s.w, s.threads[tid], o)
    requires r in s.w.db.subs && r in o.world.db.subs && InStep(s, r)
    requires SameColumns(o.world.db.subs[r], s.w.db.subs[r])
    ensures InStep(System(o.world, if o.pc.Some? then s.threads[tid := o.pc.value] else s.threads - {tid}), r)
  {
    CountMoves(s.threads, tid, o.pc, r);
  }

  lemma RowsAreNew(w: World, pc: Pc, f: Fate)
    ensures var o := Next(w, pc, f);
      forall r | r in o.world.db.subs && r !in w.db.subs ::
        pc.Create? && pc.creating.Insert? && r == w.next && o.world == Stored(w, pc.creating.row)
  {
    if !Comes(pc) { NextIsSteady(w, pc, f); hide Next; }
  }

  lemma NewRowIsInStep(s: System, tid: Id, f: Fate, r: Id)
    requires Lockstep(s) && tid in s.threads
    requires r in Apply(s, Move(tid, f)).w.db.subs && r !in s.w.db.subs
    ensures InStep(Apply(s, Move(tid, f)), r)
  {
    var pc := s.threads[tid];
    var o := Next(s.w, pc, f);
    RowsAreNew(s.w, pc, f);
    assert FirstPeriod(s.w, pc);
    NoneUnderWay(s, r);
    hide Sound;
    CountMoves(s.threads, tid, o.pc, r);
  }

  lemma QuietWorldSavesPeriods(s: System, e: Event)
    requires e.Move? ==> e.tid !in s.threads
    ensures SamePeriods(s.w, Apply(s, e).w)
  {}

  lemma QuietSavesPeriods(s: System, e: Event)
    requires Sound(s) && (e.Move? ==> e.tid !in s.threads)
    ensures SamePeriods(s.w, Apply(s, e).w)
    ensures forall sid :: UnderWay(Apply(s, e).threads, sid) == UnderWay(s.threads, sid)
  {
    var s' := Apply(s, e);
    QuietIsSteady(s, e);
    QuietWorldSavesPeriods(s, e);
    hide Apply, Sound;
    forall sid ensures UnderWay(s'.threads, sid) == UnderWay(s.threads, sid) {
      assert Renewals(s'.threads, sid) == Renewals(s.threads, sid);
    }
  }

  lemma QuietIsLockstep(s: System, e: Event)
    requires Lockstep(s) && (e.Move? ==> e.tid !in s.threads)
    ensures Lockstep(Apply(s, e))
  {
    hide Apply, Sound;
    var s' := Apply(s, e);
    ApplyKeeps(s, e);
    QuietIsSteady(s, e);
    QuietSavesPeriods(s, e);
    forall t | t in s'.threads ensures FirstPeriod(s'.w, s'.threads[t]) {
      if t in s.threads { assert FirstPeriod(s.w, s.threads[t]); }
    }
    forall r | r in s'.w.db.subs ensures InStep(s', r) { assert InStep(s, r); }
  }

  lemma ApplyIsLockstep(s: System, e: Event)
    requires Lockstep(s)
    ensures Lockstep(Apply(s, e))
  {
    if e.Move? && e.tid in s.threads {
      MoveIsLockstep(s, e.tid, e.fate);
    } else {
      QuietIsLockstep(s, e);
    }
  }

  lemma {:induction false} RunIsLockstep(clock: int, es: seq<Event>)
    ensures Lockstep(Run(Fresh(clock), es))
  {
    if es != [] {
      RunIsLockstep(clock, es[..|es| - 1]);
      ApplyIsLockstep(Run(Fresh(clock), es[..|es| - 1]), es[|es| - 1]);
    }
  }

  /** In every reachable state the node's count is exact, so the panel is never ahead of the node. */
  lemma PeriodsAreInLockstep(clock: int, es: seq<Event>, sid: Id)
    requires var w := Run(Fresh(clock), es).w; sid in w.db.subs && w.db.subs[sid].At() in w.fleet
    ensures var s := Run(Fresh(clock), es); var row := s.w.db.subs[sid];
      && s.w.fleet[row.At()].resets == row.period - 1 + UnderWay(s.threads, sid) + Count(s.w.book.spent, sid)
      && row.period <= s.w.fleet[row.At()].resets + 1
  {
    RunIsLockstep(clock, es);
    assert InStep(Run(Fresh(clock), es), sid);
  }
}
