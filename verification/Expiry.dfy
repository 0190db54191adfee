/** A subscription never runs longer than its plan's days from now. */
module Expiry {
  import opened Domain
  import opened Database
  import opened Protocol
  import opened Structure
  import opened Overlap
  import Scenarios

  /** The days that a renewal grants at most: the plan's, or at least 30 if it could not read the plan. */
  function Term(w: World, plan: Id, guessed: bool): int {
    var days := if plan in w.db.plans then w.db.plans[plan].days else 0;
    if guessed then Max(30, days) else days
  }

  ghost predicate WithinTerm(w: World, plan: Id, endAt: int, guessed: bool) {
    endAt <= w.clock + Term(w, plan, guessed) * 86400
  }

  /** A row that is being created ends within its plan's days. */
  ghost predicate InPlan(w: World, row: Row) {
    row.plan < w.next && (row.plan in w.db.plans ==> row.endAt <= w.clock + w.db.plans[row.plan].days * 86400)
  }

  ghost predicate EndsInTime(w: World, pc: Pc) {
    match pc
    case Create(CallCreate(draft)) => InPlan(w, draft)
    case Create(Insert(row, _)) => InPlan(w, row)
    case Renew(sid, row, r) => r.ReadItsPlan? || (sid in w.db.subs ==> WithinTerm(w, row.plan, r.endAt, r.guessed))
    case _ => true
  }

  ghost predicate Timely(w: World) {
    && (forall s | s in w.book.guessed :: s < w.next)
    && (forall s | s in w.db.subs :: WithinTerm(w, w.db.subs[s].plan, w.db.subs[s].endAt, s in w.book.guessed))
  }

  ghost predicate OnTime(s: System) {
    && Sound(s) && Timely(s.w)
    && (forall t | t in s.threads :: EndsInTime(s.w, s.threads[t]))
  }

  // ---------- steps ----------

  /** A bound only widens as time passes. */
  lemma TermGrows(w: World, w': World, plan: Id, endAt: int, guessed: bool)
    requires SoundWorld(w) && SoundWorld(w') && Evolves(w, w') && WithinTerm(w, plan, endAt, guessed)
    requires plan in w.db.plans && plan in w'.db.plans
    ensures WithinTerm(w', plan, endAt, guessed)
  {
    assert w'.db.plans[plan] == w.db.plans[plan];
  }

  /** The statements that write no expiry. */
  ghost predicate SameEnds(w: World, w': World) {
    && w'.book.guessed == w.book.guessed
    && (forall r | r in w'.db.subs :: r in w.db.subs && w'.db.subs[r].endAt == w.db.subs[r].endAt)
  }

  lemma SameEndsAreTimely(w: World, w': World)
    requires SoundWorld(w) && SoundWorld(w') && Evolves(w, w') && Timely(w) && SameEnds(w, w')
    ensures Timely(w')
  {
    forall r | r in w'.db.subs ensures WithinTerm(w', w'.db.subs[r].plan, w'.db.subs[r].endAt, r in w'.book.guessed) {
      assert SoundRow(w, r, w.db.subs[r]);
      TermGrows(w, w', w.db.subs[r].plan, w.db.subs[r].endAt, r in w.book.guessed);
    }
  }

  lemma TopupSavesEnds(w: World, sid: Id, row: Row, t: TopupPhase, f: Fate)
    ensures SameEnds(w, TopupStep(w, sid, row, t, f).world)
  {}

  lemma ToggleSavesEnds(w: World, customer: Id, enable: bool, t: Toggling, f: Fate)
    ensures SameEnds(w, ToggleStep(w, customer, enable, t, f).world)
  {}

  lemma OthersSaveEnds(w: World, pc: Pc, f: Fate)
    requires !(pc.Create? && pc.creating.Insert?) && !(pc.Renew? && pc.renew.WriteRenewed?)
    ensures SameEnds(w, Next(w, pc, f).world)
  {
    hide CreateStep, TopupStep, ToggleStep;
    match pc
    case Create(c) => CreateSavesEnds(w, c, f);
    case Topup(sid, row, t) => TopupSavesEnds(w, sid, row, t, f);
    case Toggle(c, enable, t) => ToggleSavesEnds(w, c, enable, t, f);
    case _ =>
  }

  lemma CreateSavesEnds(w: World, c: Creating, f: Fate)
    requires !c.Insert?
    ensures SameEnds(w, CreateStep(w, c, f).world)
  {}

  /** The plan of a stored row is read truthfully: the 30-day fallback needs a database error. */
  lemma FallbackNeedsAnError(w: World, sid: Id, row: Row, f: Fate)
    requires SoundWorld(w) && Snapshot(w, sid, row) && sid in w.db.subs
    ensures var o := RenewStep(w, sid, row, ReadItsPlan, f); var now := w.clock + f.elapsed;
      row.plan in w.db.plans
      && o.pc == Some(Renew(sid, row, CallReset(now + (if f.db then w.db.plans[row.plan].days else 30) * 86400, !f.db)))
      && (o.pc.value.renew.endAt <= now + w.db.plans[row.plan].days * 86400
         <==> f.db || w.db.plans[row.plan].days >= 30)
  {
    assert w.db.subs[sid].plan in w.db.plans;
  }

  lemma ReadPlanIsTimely(w: World, sid: Id, row: Row, f: Fate)
    requires SoundWorld(w) && Snapshot(w, sid, row)
    ensures var o := RenewStep(w, sid, row, ReadItsPlan, f); o.pc.Some? && EndsInTime(o.world, o.pc.value)
  {
    if sid in w.db.subs { FallbackNeedsAnError(w, sid, row, f); }
  }

  lemma WriteIsTimely(w: World, sid: Id, row: Row, endAt: int, guessed: bool, f: Fate)
    requires SoundWorld(w) && Timely(w) && Snapshot(w, sid, row)
    requires EndsInTime(w, Renew(sid, row, WriteRenewed(endAt, guessed)))
    ensures Timely(RenewStep(w, sid, row, WriteRenewed(endAt, guessed), f).world)
  {}

  lemma StoredIsTimely(w: World, row: Row)
    requires SoundWorld(w) && Timely(w) && InPlan(w, row) && w.db.CanInsert(row)
    ensures Timely(Stored(w, row))
  {}

  lemma NextIsTimely(w: World, pc: Pc, f: Fate)
    requires SoundWorld(w) && Timely(w) && SoundThread(w, pc) && EndsInTime(w, pc)
    ensures var o := Next(w, pc, f); Timely(o.world)
  {
    if pc.Create? && pc.creating.Insert? {
      if w.db.CanInsert(pc.creating.row) { StoredIsTimely(w, pc.creating.row); }
      hide Stored, Timely;
    } else if pc.Renew? && pc.renew.WriteRenewed? {
      WriteIsTimely(w, pc.sid, pc.row, pc.renew.endAt, pc.renew.guessed, f);
      hide RenewStep;
    } else {
      OthersSaveEnds(w, pc, f);
      NextKeeps(w, pc, f);
      hide Next, SoundThread, SoundWorld, Evolves;
      SameEndsAreTimely(w, Next(w, pc, f).world);
    }
  }

  lemma NextEndsInTime(w: World, pc: Pc, f: Fate)
    requires SoundWorld(w) && Timely(w) && SoundThread(w, pc) && EndsInTime(w, pc)
    ensures var o := Next(w, pc, f); o.pc.Some? ==> EndsInTime(o.world, o.pc.value)
  {
    hide CreateStep, RenewStep, TopupStep, ToggleStep, LifecycleStep, Timely;
    if pc.Renew? {
      RenewEndsInTime(w, pc.sid, pc.row, pc.renew, f);
    } else if pc.Create? {
      CreateEndsInTime(w, pc.creating, f);
    } else {
      NextStartsNoEnd(w, pc, f);
      hide Next;
    }
  }

  lemma RenewEndsInTime(w: World, sid: Id, row: Row, r: RenewPhase, f: Fate)
    requires SoundWorld(w) && Snapshot(w, sid, row) && EndsInTime(w, Renew(sid, row, r))
    ensures var o := RenewStep(w, sid, row, r, f); o.pc.Some? ==> EndsInTime(o.world, o.pc.value)
  {
    if r.ReadItsPlan? { ReadPlanIsTimely(w, sid, row, f); hide RenewStep; }
    hide SoundWorld, Snapshot;
  }

  lemma CreateEndsInTime(w: World, c: Creating, f: Fate)
    requires SoundCreating(w, c) && EndsInTime(w, Create(c))
    ensures var o := CreateStep(w, c, f); o.pc.Some? ==> EndsInTime(o.world, o.pc.value)
  {}

  lemma NextStartsNoEnd(w: World, pc: Pc, f: Fate)
    requires !pc.Renew? && !pc.Create?
    ensures var o := Next(w, pc, f);
      o.pc.Some? ==> !o.pc.value.Create? && (o.pc.value.Renew? ==> o.pc.value.renew.ReadItsPlan?)
  {
    hide TopupStep, ToggleStep;
    match pc
    case Topup(sid, row, t) => TopupStays(w, sid, row, t, f);
    case Toggle(c, enable, t) => ToggleStays(w, c, enable, t, f);
    case _ =>
  }

  lemma EndsAreStable(w: World, w': World, pc: Pc)
    requires SoundWorld(w) && SoundWorld(w') && SoundThread(w, pc) && EndsInTime(w, pc) && Evolves(w, w')
    ensures EndsInTime(w', pc)
  {
    if pc.Renew? && !pc.renew.ReadItsPlan? && pc.sid in w'.db.subs {
      assert w'.db.subs[pc.sid].plan in w'.db.plans;
      TermGrows(w, w', pc.row.plan, pc.renew.endAt, pc.renew.guessed);
    }
  }

  // ---------- events ----------

  lemma QuietSavesEnds(s: System, e: Event)
    requires e.Move? ==> e.tid !in s.threads
    ensures SameEnds(s.w, Apply(s, e).w)
  {}

  lemma ApplyIsOnTime(s: System, e: Event)
    requires OnTime(s)
    ensures OnTime(Apply(s, e))
  {
    hide Next;
    var s' := Apply(s, e);
    ApplyKeeps(s, e);
    if e.Move? && e.tid in s.threads {
      NextIsTimely(s.w, s.threads[e.tid], e.fate);
      NextEndsInTime(s.w, s.threads[e.tid], e.fate);
    } else {
      QuietIsSteady(s, e);
      QuietSavesEnds(s, e);
      SameEndsAreTimely(s.w, s'.w);
    }
    hide SoundWorld, SoundThread, Timely;
    forall t | t in s'.threads ensures EndsInTime(s'.w, s'.threads[t]) {
      if t in s.threads && s'.threads[t] == s.threads[t] { EndsAreStable(s.w, s'.w, s.threads[t]); }
    }
  }

  lemma {:induction false} RunIsOnTime(clock: int, es: seq<Event>)
    ensures OnTime(Run(Fresh(clock), es))
  {
    if es != [] {
      RunIsOnTime(clock, es[..|es| - 1]);
      ApplyIsOnTime(Run(Fresh(clock), es[..|es| - 1]), es[|es| - 1]);
    }
  }

  // ---------- the main results ----------

  /**
   * In every reachable state, in every interleaving; the plan of a subscription is always there, and
   * the bound is wider only while the expiry on record was written by a renewal without its plan.
   */
  lemma ExpiryIsBounded(clock: int, es: seq<Event>, sid: Id)
    requires sid in Run(Fresh(clock), es).w.db.subs
    ensures var w := Run(Fresh(clock), es).w; var row := w.db.subs[sid];
      && row.plan in w.db.plans
      && var days := w.db.plans[row.plan].days;
         row.endAt <= w.clock + (if sid in w.book.guessed then Max(30, days) else days) * 86400
  {
    RunIsOnTime(clock, es);
    var w := Run(Fresh(clock), es).w;
    assert SoundRow(w, sid, w.db.subs[sid]);
  }

  /** And nothing but the final write of a renewal moves an expiry that is on record. */
  lemma OnlyRenewalsMoveExpiry(clock: int, es: seq<Event>, e: Event, sid: Id)
    requires sid in Run(Fresh(clock), es).w.db.subs && sid in Apply(Run(Fresh(clock), es), e).w.db.subs
    requires Apply(Run(Fresh(clock), es), e).w.db.subs[sid].endAt != Run(Fresh(clock), es).w.db.subs[sid].endAt
    ensures var s := Run(Fresh(clock), es);
      && e.Move? && e.tid in s.threads && s.threads[e.tid].Renew? && s.threads[e.tid].sid == sid
      && s.threads[e.tid].renew.WriteRenewed? && Apply(s, e).w.db.subs[sid].endAt == s.threads[e.tid].renew.endAt
  {
    RunIsSound(clock, es);
    hide *;
    EndMoves(Run(Fresh(clock), es), e, sid);
  }

  lemma EndMoves(s: System, e: Event, sid: Id)
    requires Sound(s) && sid in s.w.db.subs && sid in Apply(s, e).w.db.subs
    requires Apply(s, e).w.db.subs[sid].endAt != s.w.db.subs[sid].endAt
    ensures e.Move? && e.tid in s.threads && s.threads[e.tid].Renew? && s.threads[e.tid].sid == sid
      && s.threads[e.tid].renew.WriteRenewed? && Apply(s, e).w.db.subs[sid].endAt == s.threads[e.tid].renew.endAt
  {
    IdsAreBelowNext(s.w);
    hide Sound, SoundWorld, SoundThread;
    if e.Move? && e.tid in s.threads {
      EndMovesByStep(s.w, s.threads[e.tid], e.fate, sid);
      hide Next;
    } else {
      QuietSavesEnds(s, e);
    }
  }

  lemma EndMovesByStep(w: World, pc: Pc, f: Fate, sid: Id)
    requires sid in w.db.subs && sid < w.next
    requires sid in Next(w, pc, f).world.db.subs && Next(w, pc, f).world.db.subs[sid].endAt != w.db.subs[sid].endAt
    ensures pc.Renew? && pc.sid == sid && pc.renew.WriteRenewed?
    ensures Next(w, pc, f).world.db.subs[sid].endAt == pc.renew.endAt
  {
    hide DeleteStep, PurgeStep, ToggleStep, LifecycleStep, TopupStep;
    if !(pc.Create? && pc.creating.Insert?) && !(pc.Renew? && pc.renew.WriteRenewed?) {
      OthersSaveEnds(w, pc, f);
      hide Next;
    }
  }

  // ---------- renewals that do not overlap never shorten ----------

  /** A renewal that has read the plan carries an expiry that is no earlier than the row's. */
  ghost predicate CarriesLater(w: World, pc: Pc, sid: Id) {
    pc.Renew? && pc.sid == sid && !pc.renew.ReadItsPlan? && !pc.renew.guessed && sid in w.db.subs
    && sid !in w.book.guessed
    ==> pc.renew.endAt >= w.db.subs[sid].endAt
  }

  ghost predicate Lengthening(s: System, sid: Id) {
    && OnTime(s) && AtMostOne(s, sid, Renewals)
    && (forall t | t in s.threads :: CarriesLater(s.w, s.threads[t], sid))
  }

  /** Unless the expiry was a guess or has become one. */
  ghost predicate NotShortened(w: World, w': World, sid: Id) {
    sid in w.db.subs && sid in w'.db.subs && sid !in w.book.guessed && sid !in w'.book.guessed
    ==> w'.db.subs[sid].endAt >= w.db.subs[sid].endAt
  }

  lemma RenewalLengthens(w: World, pc: Pc, f: Fate, sid: Id)
    requires SoundWorld(w) && Timely(w) && pc.Renew? && pc.sid == sid && SoundThread(w, pc) && CarriesLater(w, pc, sid)
    ensures var o := Next(w, pc, f);
      && NotShortened(w, o.world, sid)
      && (o.pc.Some? ==> CarriesLater(o.world, o.pc.value, sid))
  {
    hide CreateStep, DeleteStep, PurgeStep, ToggleStep, LifecycleStep, TopupStep;
    if pc.renew.ReadItsPlan? && sid in w.db.subs {
      FallbackNeedsAnError(w, sid, pc.row, f);
      assert WithinTerm(w, w.db.subs[sid].plan, w.db.subs[sid].endAt, sid in w.book.guessed);
    }
    hide SoundWorld, Timely;
  }

  /** Other threads leave the row's expiry alone. */
  lemma OthersKeepEnd(w: World, pc: Pc, f: Fate, sid: Id)
    requires SoundWorld(w) && sid < w.next && !(pc.Renew? && pc.sid == sid)
    ensures var w' := Next(w, pc, f).world;
      (sid in w'.book.guessed <==> sid in w.book.guessed)
      && (sid in w'.db.subs ==> sid in w.db.subs && w'.db.subs[sid].endAt == w.db.subs[sid].endAt)
  {
    hide DeleteStep, PurgeStep, ToggleStep, LifecycleStep, TopupStep, SoundWorld;
    if pc.Renew? {
      hide CreateStep;
    } else if pc.Create? && pc.creating.Insert? {
      hide RenewStep;
    } else {
      OthersSaveEnds(w, pc, f);
      hide Next;
    }
  }

  lemma MoveLengthens(s: System, tid: Id, f: Fate, sid: Id)
    requires Lengthening(s, sid) && tid in s.threads
    ensures var s' := Apply(s, Move(tid, f));
      && NotShortened(s.w, s'.w, sid)
      && (forall t | t in s'.threads :: CarriesLater(s'.w, s'.threads[t], sid))
  {
    var pc := s.threads[tid];
    var s' := Apply(s, Move(tid, f));
    var o := Next(s.w, pc, f);
    assert SoundThread(s.w, pc);
    IdsAreBelowNext(s.w);
    if pc.Renew? && pc.sid == sid {
      RenewalLengthens(s.w, pc, f, sid);
      forall t | t in s.threads && t != tid ensures !Renews(s.threads[t], sid) {}
    } else {
      if sid < s.w.next { OthersKeepEnd(s.w, pc, f, sid); }
      WorkBegan(s.w, pc, f, sid, Renewals);
      NextStartsNoRenewal(s.w, pc, f, sid);
      forall t | t in s.threads && s.threads[t].Renew? && s.threads[t].sid == sid ensures sid < s.w.next {
        assert SoundThread(s.w, s.threads[t]);
      }
    }
    hide Next, OnTime, SoundWorld;
  }

  lemma NextStartsNoRenewal(w: World, pc: Pc, f: Fate, sid: Id)
    requires !(pc.Renew? && pc.sid == sid)
    ensures var o := Next(w, pc, f); o.pc.Some? ==> CarriesLater(o.world, o.pc.value, sid)
  {
    hide CreateStep, TopupStep, ToggleStep, LifecycleStep;
    match pc
    case Create(c) => CreateStays(w, c, f);
    case Topup(q, row, t) => TopupStays(w, q, row, t, f);
    case Toggle(c, enable, t) => ToggleStays(w, c, enable, t, f);
    case Lifecycle(q, row, target, acked) => LifecycleStays(w, q, row, target, acked, f);
    case _ =>
  }

  lemma QuietLengthens(s: System, e: Event, sid: Id)
    requires Lengthening(s, sid) && (e.Move? ==> e.tid !in s.threads)
    ensures var s' := Apply(s, e);
      && NotShortened(s.w, s'.w, sid)
      && (forall t | t in s'.threads :: CarriesLater(s'.w, s'.threads[t], sid))
  {
    var s' := Apply(s, e);
    QuietSavesEnds(s, e);
    hide Apply, OnTime;
    forall t | t in s'.threads ensures CarriesLater(s'.w, s'.threads[t], sid) { ThreadsAfter(s, e, t); }
  }

  lemma ApplyLengthens(s: System, e: Event, sid: Id)
    requires Lengthening(s, sid) && Apart(s, e, sid, Renewals)
    ensures Lengthening(Apply(s, e), sid) && NotShortened(s.w, Apply(s, e).w, sid)
  {
    ApplyIsOnTime(s, e);
    StaysApart(s, e, sid, Renewals);
    if e.Move? && e.tid in s.threads { MoveLengthens(s, e.tid, e.fate, sid); } else { QuietLengthens(s, e, sid); }
    hide Apply, OnTime, CarriesLater;
  }

  lemma {:induction false} RunLengthens(s: System, es: seq<Event>, sid: Id)
    requires Lengthening(s, sid) && ApartRun(s, es, sid, Renewals)
    ensures Lengthening(Run(s, es), sid)
    decreases |es|
  {
    if es != [] {
      var init := es[..|es| - 1];
      assert forall k | 0 <= k < |init| :: init[..k] == es[..k];
      RunLengthens(s, init, sid);
      assert Apart(Run(s, init), es[|es| - 1], sid, Renewals);
      ApplyLengthens(Run(s, init), es[|es| - 1], sid);
    }
  }

  /**
   * In every run whose renewals of a subscription do not overlap one another, whatever else goes on
   * and fails: its end_at never decreases while the one on record is not a guess.
   */
  lemma RenewalsNeverShorten(clock: int, es: seq<Event>, i: nat, j: nat, sid: Id)
    requires ApartRun(Fresh(clock), es, sid, Renewals) && i <= j <= |es|
    requires sid in Run(Fresh(clock), es[..i]).w.db.subs && sid in Run(Fresh(clock), es[..j]).w.db.subs
    requires forall k | i <= k <= j :: sid !in Run(Fresh(clock), es[..k]).w.book.guessed
    ensures Run(Fresh(clock), es[..i]).w.db.subs[sid].endAt <= Run(Fresh(clock), es[..j]).w.db.subs[sid].endAt
    decreases j
  {
    hide Run, Fresh, ApartRun;
    if i < j {
      EventNeverShortens(clock, es, j - 1, sid);
      RowWasThere(clock, es, i, j - 1, j, sid);
      RenewalsNeverShorten(clock, es, i, j - 1, sid);
    }
  }

  /** Ids are never reused. */
  lemma RowWasThere(clock: int, es: seq<Event>, i: nat, k: nat, j: nat, sid: Id)
    requires i <= k <= j <= |es|
    requires sid in Run(Fresh(clock), es[..i]).w.db.subs && sid in Run(Fresh(clock), es[..j]).w.db.subs
    ensures sid in Run(Fresh(clock), es[..k]).w.db.subs
  {
    RunEvolves(clock, es, i, k);
    RunEvolves(clock, es, k, j);
    RunIsSound(clock, es[..i]);
    hide Run;
    IdsAreBelowNext(Run(Fresh(clock), es[..i]).w);
    hide SoundWorld;
  }

  lemma EventNeverShortens(clock: int, es: seq<Event>, j: nat, sid: Id)
    requires ApartRun(Fresh(clock), es, sid, Renewals) && j < |es|
    ensures NotShortened(Run(Fresh(clock), es[..j]).w, Run(Fresh(clock), es[..j + 1]).w, sid)
  {
    var init := es[..j];
    assert forall k | 0 <= k < |init| :: init[..k] == es[..k];
    assert es[..j + 1][..j] == init;
    RunLengthens(Fresh(clock), init, sid);
    ApplyLengthens(Run(Fresh(clock), init), es[j], sid);
    hide Apply, NotShortened, Lengthening;
  }

  /** Two renewals are about to write, and the one that read the clock first has not come first. */
  ghost predicate Outdated(s: System, sid: Id, older: Id, newer: Id) {
    && older in s.threads && newer in s.threads && older != newer && sid in s.w.db.subs
    && s.threads[older].Renew? && s.threads[older].sid == sid && s.threads[older].renew.WriteRenewed?
    && s.threads[newer].Renew? && s.threads[newer].sid == sid && s.threads[newer].renew.WriteRenewed?
    && s.threads[older].renew.endAt < s.threads[newer].renew.endAt
  }

  /** That renewals do not overlap is needed: otherwise the older expiry can be written last, though nothing fails. */
  lemma OverlappingRenewalsShorten(s: System, sid: Id, older: Id, newer: Id)
    requires Outdated(s, sid, older, newer)
    ensures var s1 := Apply(s, Move(newer, FINE)); var s2 := Apply(s1, Move(older, FINE));
      sid in s1.w.db.subs && sid in s2.w.db.subs && s2.w.db.subs[sid].endAt < s1.w.db.subs[sid].endAt
  {
    var s1 := Apply(s, Move(newer, FINE));
    assert s1.threads[older] == s.threads[older];
    hide CreateStep, DeleteStep, PurgeStep, ToggleStep, LifecycleStep, TopupStep;
  }

  /** And that situation is reached from an empty installation without any failure. */
  lemma OutdatedIsReachable(clock: int)
    ensures exists es, sid, older, newer :: Scenarios.Smooth(es) && Outdated(Run(Fresh(clock), es), sid, older, newer)
  {
    var h, s, sid := Scenarios.Stock(clock, 30);
    Scenarios.RenewalCalls(s.w, sid, true, 0);
    hide Run, Alone, Next;
    var h1, s1 := Scenarios.Enter(Fresh(clock), h, 5, LoadSub(sid, NewPeriod), Scenarios.Renewing(true, 0)[..5]);
    Scenarios.RenewalCalls(s1.w, sid, true, 1);
    var h2, s2 := Scenarios.Enter(Fresh(clock), h1, 6, LoadSub(sid, NewPeriod), Scenarios.Renewing(true, 1)[..5]);
    assert Outdated(s2, sid, 5, 6);
  }

  // ---------- renewals that cannot read the plan ----------

  /** A renewal that runs alone leaves an earlier expiry. */
  ghost predicate Shortens(w: World, sid: Id, fs: seq<Fate>) {
    var o := Alone(w, LoadSub(sid, NewPeriod), fs);
    o.pc.None? && sid in w.db.subs && sid in o.world.db.subs && o.world.db.subs[sid].endAt < w.db.subs[sid].endAt
  }

  /** A renewal that runs alone grants more than the plan's days. */
  ghost predicate Overruns(w: World, sid: Id, fs: seq<Fate>) {
    var o := Alone(w, LoadSub(sid, NewPeriod), fs);
    && o.pc.None? && sid in o.world.db.subs && o.world.db.subs[sid].plan in o.world.db.plans
    && o.world.db.subs[sid].endAt > o.world.clock + o.world.db.plans[o.world.db.subs[sid].plan].days * 86400
  }

  /**
   * A renewal that runs alone shortens a subscription if and only if more is left of it than what is
   * granted now, and it overruns the plan if and only if it cannot read a plan of fewer than 30 days.
   */
  lemma RenewalMovesExpiry(w: World, sid: Id, read: bool, elapsed: nat)
    requires Scenarios.Served(w, sid)
    ensures var row := w.db.subs[sid]; var days := w.db.plans[row.plan].days;
      && (Shortens(w, sid, Scenarios.Renewing(read, elapsed))
          <==> row.endAt > w.clock + elapsed + (if read then days else 30) * 86400)
      && (Overruns(w, sid, Scenarios.Renewing(read, elapsed)) <==> !read && days < 30)
  {
    Scenarios.RenewalEnds(w, sid, read, elapsed);
    hide Alone;
  }

  /**
   * Guesses are needed exceptions: from states with no request under way that are reached without any
   * failure, a guess shortens a longer plan, and it overruns a shorter one.
   */
  lemma GuessesMislead(clock: int)
    ensures exists es, sid :: Scenarios.Smooth(es) && Run(Fresh(clock), es).threads == map[]
                              && Shortens(Run(Fresh(clock), es).w, sid, Scenarios.Renewing(false, 0))
    ensures exists es, sid :: Scenarios.Smooth(es) && Run(Fresh(clock), es).threads == map[]
                              && Overruns(Run(Fresh(clock), es).w, sid, Scenarios.Renewing(false, 0))
  {
    var h, s, sid := Scenarios.Stock(clock, 60);
    RenewalMovesExpiry(s.w, sid, false, 0);
    var h', s', sid' := Scenarios.Stock(clock, 10);
    RenewalMovesExpiry(s'.w, sid', false, 0);
    hide Run, Shortens, Overruns;
  }

  /** And once a guess is on record, a renewal that reads the plan can shorten it again. */
  lemma ReplacedGuessShortens(clock: int)
    ensures exists es, sid :: Run(Fresh(clock), es).threads == map[]
                              && Shortens(Run(Fresh(clock), es).w, sid, Scenarios.Renewing(true, 0))
  {
    var h, s, sid := Scenarios.Stock(clock, 10);
    Scenarios.RenewalEnds(s.w, sid, false, 0);
    hide Run, Alone, Next, Shortens;
    var h1, s1 := Scenarios.Enter(Fresh(clock), h, 5, LoadSub(sid, NewPeriod), Scenarios.Renewing(false, 0));
    RenewalMovesExpiry(s1.w, sid, true, 0);
  }
}
