/**
 * The notification high-water mark and the status notices of one subscription, over all runs in
 * which its own polls decide on what its row says and what they announce is stored. Whatever
 * befalls all other subscriptions, and all other statements and calls, is free.
 */
module Notifications {
  import opened Domain
  import opened Database
  import opened Protocol
  import opened Structure
  import opened Overlap
  import Threshold

  /** A poll decides on the threshold as it is, and stores a level that it announces. */
  predicate LevelAttentive(s: System, e: Event, sid: Id) {
    e.Observe? && e.sid == sid && sid in s.w.db.subs ==>
      && e.snap.notified == s.w.db.subs[sid].notified
      && (Threshold.Level(e.usage.used, e.snap.quota) > e.snap.notified ==> e.writes.notified)
  }

  ghost predicate LevelAttentiveRun(s: System, es: seq<Event>, sid: Id) {
    forall k | 0 <= k < |es| :: LevelAttentive(Run(s, es[..k]), es[k], sid)
  }

  /** A poll is of a row that is active, and stores a status that it announces. */
  predicate StatusAttentive(s: System, e: Event, sid: Id) {
    e.Observe? && e.sid == sid ==>
      && sid in s.w.db.subs && e.snap.status == s.w.db.subs[sid].status == "active"
      && (e.usage.status != "active" && Announced(e.usage.status) ==> e.writes.status)
  }

  ghost predicate StatusAttentiveRun(s: System, es: seq<Event>, sid: Id) {
    forall k | 0 <= k < |es| :: StatusAttentive(Run(s, es[..k]), es[k], sid)
  }

  // ---------- what a trail says about one subscription ----------

  /** The level of the last re-arm. */
  function Floor(trail: seq<Mark>, sid: Id): int {
    if trail == [] then 0
    else match trail[|trail| - 1]
      case Rearmed(s, l) => if s == sid then l else Floor(trail[..|trail| - 1], sid)
      case _ => Floor(trail[..|trail| - 1], sid)
  }

  /** The maximum of the last re-arm level and every level seen since. */
  function High(trail: seq<Mark>, sid: Id): int {
    if trail == [] then 0
    else
      var rest := trail[..|trail| - 1];
      match trail[|trail| - 1]
      case Rearmed(s, l) => if s == sid then l else High(rest, sid)
      case Seen(s, l) => if s == sid then Max(High(rest, sid), l) else High(rest, sid)
      case _ => High(rest, sid)
  }

  /** The levels of the usage events sent since the last re-arm, in order. */
  function Sent(trail: seq<Mark>, sid: Id): seq<int> {
    if trail == [] then []
    else
      var rest := trail[..|trail| - 1];
      match trail[|trail| - 1]
      case Rearmed(s, l) => if s == sid then [] else Sent(rest, sid)
      case UsageSent(s, l) => if s == sid then Sent(rest, sid) + [l] else Sent(rest, sid)
      case _ => Sent(rest, sid)
  }

  /** The last of the subscription's activations and collector status notices is an activation. */
  predicate Armed(trail: seq<Mark>, sid: Id) {
    if trail == [] then true
    else match trail[|trail| - 1]
      case Activated(s) => s == sid || Armed(trail[..|trail| - 1], sid)
      case StatusSent(s, _, byCollector) => !(s == sid && byCollector) && Armed(trail[..|trail| - 1], sid)
      case _ => Armed(trail[..|trail| - 1], sid)
  }

  /** Marks of other subscriptions change nothing. */
  lemma Appended(trail: seq<Mark>, m: Mark, sid: Id)
    ensures Floor(trail + [m], sid) == if m.Rearmed? && m.sid == sid then m.level else Floor(trail, sid)
    ensures High(trail + [m], sid) ==
      if m.Rearmed? && m.sid == sid then m.level
      else if m.Seen? && m.sid == sid then Max(High(trail, sid), m.level) else High(trail, sid)
    ensures Sent(trail + [m], sid) ==
      if m.Rearmed? && m.sid == sid then []
      else if m.UsageSent? && m.sid == sid then Sent(trail, sid) + [m.level] else Sent(trail, sid)
    ensures Armed(trail + [m], sid) ==
      if m.Activated? && m.sid == sid then true
      else if m.StatusSent? && m.sid == sid && m.byCollector then false else Armed(trail, sid)
  {
    assert (trail + [m])[..|trail|] == trail;
  }

  // ---------- the invariant ----------

  ghost predicate Increasing(levels: seq<int>) {
    forall i, j | 0 <= i < j < |levels| :: levels[i] < levels[j]
  }

  /** The sent levels climb from the floor to the high-water mark. */
  ghost predicate Climbs(levels: seq<int>, floor: int, high: int) {
    && Increasing(levels)
    && (forall i | 0 <= i < |levels| :: levels[i] in {80, 95, 100} && floor < levels[i])
    && high == if levels == [] then floor else levels[|levels| - 1]
  }

  /** The row's threshold is the high-water mark, and the levels sent have climbed up to it. */
  ghost predicate Levels(w: World, sid: Id) {
    sid in w.db.subs ==>
      && w.db.subs[sid].notified == High(w.book.trail, sid)
      && Climbs(Sent(w.book.trail, sid), Floor(w.book.trail, sid), High(w.book.trail, sid))
      && 0 <= Floor(w.book.trail, sid)
  }

  /** No status notice of the collector has gone out since the row became active. */
  ghost predicate Statuses(w: World, sid: Id) {
    sid in w.db.subs && w.db.subs[sid].status == "active" ==> Armed(w.book.trail, sid)
  }

  ghost predicate Carries(w: World, w': World, sid: Id) {
    (Levels(w, sid) ==> Levels(w', sid)) && (Statuses(w, sid) ==> Statuses(w', sid))
  }

  /** A row that is being created starts unnotified. */
  ghost predicate Unnotified(pc: Pc) {
    match pc
    case Create(CallCreate(draft)) => draft.notified == 0
    case Create(Insert(row, _)) => row.notified == 0
    case _ => true
  }

  ghost predicate Unnoted(s: System) { forall t | t in s.threads :: Unnotified(s.threads[t]) }

  // ---------- how rows and trail move together ----------

  lemma SwitchRowCarries(w: World, sid: Id, status: string, r: Id)
    ensures Carries(w, SwitchRow(w, sid, status), r)
  {
    Appended(w.book.trail, Activated(sid), r);
    assert w.book.trail + [] == w.book.trail;
  }

  lemma NotingByHandlerCarries(w: World, sid: Id, status: string, r: Id)
    ensures Carries(w, Noting(w, [StatusSent(sid, status, false)]), r)
  {
    Appended(w.book.trail, StatusSent(sid, status, false), r);
  }

  lemma RearmCarries(w: World, sid: Id, used: int, quota: int, r: Id)
    ensures Carries(w, Rearm(w, sid, Threshold.Level(used, quota)), r)
  {
    Appended(w.book.trail, Rearmed(sid, Threshold.Level(used, quota)), r);
  }

  lemma TwoMarks(trail: seq<Mark>, a: Mark, b: Mark)
    ensures trail + [a, b] == trail + [a] + [b]
  {}

  lemma RenewedCarries(w: World, sid: Id, endAt: int, guessed: bool, r: Id)
    requires sid in w.db.subs
    ensures Carries(w, Renewed(w, sid, endAt, guessed), r)
  {
    TwoMarks(w.book.trail, Rearmed(sid, 0), Activated(sid));
    Appended(w.book.trail, Rearmed(sid, 0), r);
    Appended(w.book.trail + [Rearmed(sid, 0)], Activated(sid), r);
  }

  lemma StoredCarries(w: World, row: Row, r: Id)
    requires row.notified == 0
    ensures Carries(w, Stored(w, row), r)
  {
    TwoMarks(w.book.trail, Rearmed(w.next, 0), Activated(w.next));
    Appended(w.book.trail, Rearmed(w.next, 0), r);
    Appended(w.book.trail + [Rearmed(w.next, 0)], Activated(w.next), r);
  }

  // ---------- the collector's step ----------

  /** What the collector's notices add to the trail of the polled subscription. */
  lemma NoticesMean(trail: seq<Mark>, sid: Id, snap: Row, u: Usage, r: Id)
    ensures var t := trail + Notices(sid, snap, u); var level := Threshold.Level(u.used, snap.quota);
      && Floor(t, r) == Floor(trail, r)
      && High(t, r) == (if r == sid then Max(High(trail, r), level) else High(trail, r))
      && Sent(t, r) == (if r == sid && level > snap.notified then Sent(trail, r) + [level] else Sent(trail, r))
      && Armed(t, r) == (Armed(trail, r)
                         && !(r == sid && u.status != "" && u.status != snap.status && Announced(u.status)))
  {
    var level := Threshold.Level(u.used, snap.quota);
    var t1 := trail + [Seen(sid, level)];
    var t2 := if level > snap.notified then t1 + [UsageSent(sid, level)] else t1;
    var t3 := if u.status != "" && u.status != snap.status && Announced(u.status)
              then t2 + [StatusSent(sid, u.status, true)] else t2;
    assert trail + Notices(sid, snap, u) == t3;
    Appended(trail, Seen(sid, level), r);
    Appended(t1, UsageSent(sid, level), r);
    Appended(t2, StatusSent(sid, u.status, true), r);
    hide Floor, High, Sent, Armed;
  }

  lemma ClimbsOn(levels: seq<int>, floor: int, high: int, level: int)
    requires Climbs(levels, floor, high) && level in {80, 95, 100} && level > high
    ensures Climbs(levels + [level], floor, level)
  {}

  /**
   * A poll that decides on the threshold as it is keeps the high-water mark exactly when an
   * announced level is stored.
   */
  lemma ObserveKeepsLevels(w: World, sid: Id, snap: Row, u: Usage, wr: Writes)
    requires Levels(w, sid) && sid in w.db.subs && snap.notified == w.db.subs[sid].notified
    ensures Levels(ObserveRow(w, sid, snap, u, wr), sid)
            <==> (Threshold.Level(u.used, snap.quota) > snap.notified ==> wr.notified)
  {
    var level := Threshold.Level(u.used, snap.quota);
    var trail := w.book.trail;
    NoticesMean(trail, sid, snap, u, sid);
    hide Floor, High, Sent, Armed, Notices;
    if level > snap.notified {
      FloorIsBelow(Sent(trail, sid), Floor(trail, sid), High(trail, sid));
      ClimbsOn(Sent(trail, sid), Floor(trail, sid), High(trail, sid), level);
    }
    hide Climbs;
  }

  /** A poll of an active row keeps the notices alternating exactly when an announced status is stored. */
  lemma ObserveKeepsStatuses(w: World, sid: Id, snap: Row, u: Usage, wr: Writes)
    requires Statuses(w, sid) && sid in w.db.subs && snap.status == w.db.subs[sid].status == "active"
    ensures Statuses(ObserveRow(w, sid, snap, u, wr), sid)
            <==> (u.status != "active" && Announced(u.status) ==> wr.status)
  {
    NoticesMean(w.book.trail, sid, snap, u, sid);
    hide Floor, High, Sent, Armed, Notices, Threshold.Level;
  }

  /** Polls of other subscriptions. */
  lemma ObserveCarries(w: World, sid: Id, snap: Row, u: Usage, wr: Writes, r: Id)
    requires r != sid
    ensures Carries(w, ObserveRow(w, sid, snap, u, wr), r)
  {
    NoticesMean(w.book.trail, sid, snap, u, r);
    hide Floor, High, Sent, Armed, Notices, Climbs, Threshold.Level;
  }

  lemma FloorIsBelow(levels: seq<int>, floor: int, high: int)
    requires Climbs(levels, floor, high)
    ensures floor <= high
  {}

  // ---------- every step and event ----------

  /** Steps that write neither notifications nor statuses nor the trail. */
  ghost predicate Silent(w: World, w': World) {
    && w'.book.trail == w.book.trail
    && (forall r | r in w'.db.subs :: r in w.db.subs && w'.db.subs[r].notified == w.db.subs[r].notified
                                      && w'.db.subs[r].status == w.db.subs[r].status)
  }

  lemma TopupIsSilent(w: World, sid: Id, row: Row, t: TopupPhase, f: Fate)
    requires !t.WriteStatus? && !t.WriteNotified?
    ensures Silent(w, TopupStep(w, sid, row, t, f).world)
  {}

  lemma RenewIsSilent(w: World, sid: Id, row: Row, p: RenewPhase, f: Fate)
    requires !p.WriteRenewed?
    ensures Silent(w, RenewStep(w, sid, row, p, f).world)
  {}

  lemma SilentCarries(w: World, w': World, r: Id)
    requires Silent(w, w')
    ensures Carries(w, w', r)
  {}

  lemma NextCarries(w: World, pc: Pc, f: Fate, r: Id)
    requires Unnotified(pc)
    ensures Carries(w, Next(w, pc, f).world, r)
  {
    var w' := Next(w, pc, f).world;
    hide Levels, Statuses;
    if pc.Topup? {
      TopupCarries(w, pc.sid, pc.row, pc.topup, f, r);
      hide TopupStep;
    } else if pc.Renew? {
      if pc.renew.WriteRenewed? {
        if pc.sid in w.db.subs { RenewedCarries(w, pc.sid, pc.renew.endAt, pc.renew.guessed, r); }
        SilentCarries(w, Spending(w, pc.sid), r);
      } else { RenewIsSilent(w, pc.sid, pc.row, pc.renew, f); SilentCarries(w, w', r); }
    } else if pc.Create? {
      CreateCarries(w, pc.creating, f, r);
    } else {
      PlainCarries(w, pc, f, r);
    }
  }

  lemma TopupCarries(w: World, sid: Id, row: Row, t: TopupPhase, f: Fate, r: Id)
    ensures Carries(w, TopupStep(w, sid, row, t, f).world, r)
  {
    hide Levels, Statuses, Threshold.Level;
    if t.WriteStatus? { SwitchRowCarries(w, sid, "active", r); }
    else if t.WriteNotified? { RearmCarries(w, sid, row.used, t.quota, r); }
    else { TopupIsSilent(w, sid, row, t, f); SilentCarries(w, TopupStep(w, sid, row, t, f).world, r); }
  }

  lemma CreateCarries(w: World, c: Creating, f: Fate, r: Id)
    requires Unnotified(Create(c))
    ensures Carries(w, CreateStep(w, c, f).world, r)
  {
    hide Levels, Statuses;
    if c.Insert? {
      StoredCarries(w, c.row, r);
    } else {
      assert Silent(w, CreateStep(w, c, f).world);
      SilentCarries(w, CreateStep(w, c, f).world, r);
    }
  }

  lemma PlainCarries(w: World, pc: Pc, f: Fate, r: Id)
    requires !pc.Topup? && !pc.Renew? && !pc.Create?
    ensures Carries(w, Next(w, pc, f).world, r)
  {
    hide Levels, Statuses;
    if pc.Toggle? && pc.toggling.WriteRow? {
      SwitchRowCarries(w, pc.toggling.sid, if pc.enable then "active" else "suspended", r);
    } else if pc.Lifecycle? && pc.acked {
      SwitchRowCarries(w, pc.sid, pc.target, r);
      NotingByHandlerCarries(SwitchRow(w, pc.sid, pc.target), pc.sid, pc.target, r);
    } else {
      PlainIsSilent(w, pc, f);
      SilentCarries(w, Next(w, pc, f).world, r);
      hide Next;
    }
  }

  lemma PlainIsSilent(w: World, pc: Pc, f: Fate)
    requires !pc.Topup? && !pc.Renew? && !pc.Create?
    requires !(pc.Toggle? && pc.toggling.WriteRow?) && !(pc.Lifecycle? && pc.acked)
    ensures Silent(w, Next(w, pc, f).world)
  {
    if pc.Toggle? { ToggleIsSilent(w, pc.customer, pc.enable, pc.toggling, f); hide ToggleStep; }
  }

  lemma ToggleIsSilent(w: World, customer: Id, enable: bool, t: Toggling, f: Fate)
    requires !t.WriteRow?
    ensures Silent(w, ToggleStep(w, customer, enable, t, f).world)
  {}

  lemma NextIsUnnotified(w: World, pc: Pc, f: Fate)
    requires Unnotified(pc)
    ensures var o := Next(w, pc, f); o.pc.Some? ==> Unnotified(o.pc.value)
  {
    if !Comes(pc) { NextIsSteady(w, pc, f); hide Next; }
  }

  lemma QuietIsSilent(s: System, e: Event)
    requires !e.Observe? && (e.Move? ==> e.tid !in s.threads)
    ensures Silent(s.w, Apply(s, e).w)
  {}

  lemma ApplyCarries(s: System, e: Event, r: Id)
    requires Unnoted(s) && !(e.Observe? && e.sid == r)
    ensures Carries(s.w, Apply(s, e).w, r)
  {
    hide Next, Levels, Statuses;
    if e.Move? && e.tid in s.threads {
      NextCarries(s.w, s.threads[e.tid], e.fate, r);
    } else if e.Observe? {
      ObserveCarries(s.w, e.sid, e.snap, e.usage, e.writes, r);
    } else {
      QuietIsSilent(s, e);
      SilentCarries(s.w, Apply(s, e).w, r);
    }
  }

  lemma StaysUnnoted(s: System, e: Event)
    requires Unnoted(s)
    ensures Unnoted(Apply(s, e))
  {
    var s' := Apply(s, e);
    hide Apply, Next;
    forall t | t in s'.threads ensures Unnotified(s'.threads[t]) {
      ThreadsAfter(s, e, t);
      if e.Move? && e.tid == t && t in s.threads { NextIsUnnotified(s.w, s.threads[t], e.fate); }
    }
  }

  lemma ObserveApplies(s: System, e: Event)
    requires e.Observe?
    ensures Apply(s, e) == s.(w := ObserveRow(s.w, e.sid, e.snap, e.usage, e.writes))
  {}

  lemma NoRowNoLevels(s: System, e: Event)
    requires e.Observe? && e.sid !in s.w.db.subs
    ensures Levels(Apply(s, e).w, e.sid)
  {
    hide Notices;
  }

  lemma {:induction false} RunKeepsLevels(s: System, es: seq<Event>, sid: Id)
    requires Unnoted(s) && Levels(s.w, sid) && LevelAttentiveRun(s, es, sid)
    ensures Unnoted(Run(s, es)) && Levels(Run(s, es).w, sid)
    decreases |es|
  {
    if es != [] {
      var init, e := es[..|es| - 1], es[|es| - 1];
      assert forall k | 0 <= k < |init| :: init[..k] == es[..k];
      RunKeepsLevels(s, init, sid);
      var s1 := Run(s, init);
      assert LevelAttentive(s1, e, sid);
      hide Apply, Next, Levels, Unnoted;
      StaysUnnoted(s1, e);
      if e.Observe? && e.sid == sid {
        ObserveApplies(s1, e);
        if sid in s1.w.db.subs {
          ObserveKeepsLevels(s1.w, sid, e.snap, e.usage, e.writes);
        } else {
          NoRowNoLevels(s1, e);
        }
      } else {
        ApplyCarries(s1, e, sid);
      }
    }
  }

  lemma {:induction false} RunKeepsStatuses(s: System, es: seq<Event>, sid: Id)
    requires Unnoted(s) && Statuses(s.w, sid) && StatusAttentiveRun(s, es, sid)
    ensures Unnoted(Run(s, es)) && Statuses(Run(s, es).w, sid)
    decreases |es|
  {
    if es != [] {
      var init, e := es[..|es| - 1], es[|es| - 1];
      assert forall k | 0 <= k < |init| :: init[..k] == es[..k];
      RunKeepsStatuses(s, init, sid);
      var s1 := Run(s, init);
      assert StatusAttentive(s1, e, sid);
      StaysUnnoted(s1, e);
      hide Next, Statuses, Unnoted;
      if e.Observe? && e.sid == sid {
        ObserveKeepsStatuses(s1.w, sid, e.snap, e.usage, e.writes);
      } else {
        ApplyCarries(s1, e, sid);
      }
    }
  }

  // ---------- the main results: usage notices ----------

  lemma {:induction false} AtMostThree(levels: seq<int>, floor: int, high: int)
    requires Climbs(levels, floor, high) && floor >= 0
    ensures |levels| <= 3
    ensures forall i, j | 0 <= i < |levels| && 0 <= j < |levels| && levels[i] == 100 && levels[j] == 100 :: i == j
  {
    assert |levels| > 1 ==> levels[0] < levels[1];
    assert |levels| > 2 ==> levels[1] < levels[2];
    if |levels| > 3 { assert false; }
  }

  /**
   * Between re-arms notified_threshold is the high-water mark of the levels seen, the levels sent
   * strictly increase up to it, at most three usage events go out, and at most one is over_quota.
   */
  lemma HighWaterMark(clock: int, es: seq<Event>, sid: Id)
    requires LevelAttentiveRun(Fresh(clock), es, sid) && sid in Run(Fresh(clock), es).w.db.subs
    ensures var w := Run(Fresh(clock), es).w; var sent := Sent(w.book.trail, sid); var high := High(w.book.trail, sid);
      && w.db.subs[sid].notified == high
      && Increasing(sent) && |sent| <= 3
      && (if sent == [] then high == Floor(w.book.trail, sid) else high == sent[|sent| - 1] > Floor(w.book.trail, sid))
      && (forall i, j | 0 <= i < |sent| && 0 <= j < |sent| && sent[i] == 100 && sent[j] == 100 :: i == j)
  {
    RunKeepsLevels(Fresh(clock), es, sid);
    var trail := Run(Fresh(clock), es).w.book.trail;
    hide Run, High, Floor, Sent;
    AtMostThree(Sent(trail, sid), Floor(trail, sid), High(trail, sid));
  }

  /** The next poll of a subscription, which the collector makes only while the row is active. */
  function PollAgain(w: World, sid: Id, u: Usage): World {
    if sid in w.db.subs && w.db.subs[sid].status == "active"
    then ObserveRow(w, sid, w.db.subs[sid], u, ALL_WRITES)
    else w
  }

  /**
   * That an announced level is stored is needed: with the same answer the next pass announces it
   * again if and only if the first failed to store it and the row has stayed active.
   */
  lemma LostWriteRepeats(w: World, sid: Id, u: Usage, wr: Writes)
    requires sid in w.db.subs && Threshold.Level(u.used, w.db.subs[sid].quota) > w.db.subs[sid].notified
    ensures var w1 := ObserveRow(w, sid, w.db.subs[sid], u, wr);
      var level := Threshold.Level(u.used, w.db.subs[sid].quota);
      && sid in w1.db.subs
      && Sent(PollAgain(w1, sid, u).book.trail, sid)
         == Sent(w.book.trail, sid) + [level]
            + if wr.notified || w1.db.subs[sid].status != "active" then [] else [level]
  {
    var w1 := ObserveRow(w, sid, w.db.subs[sid], u, wr);
    NoticesMean(w.book.trail, sid, w.db.subs[sid], u, sid);
    NoticesMean(w1.book.trail, sid, w1.db.subs[sid], u, sid);
    hide Sent, Notices, Threshold.Level;
  }

  // ---------- the main results: status notices ----------

  ghost predicate ByCollector(m: Mark, sid: Id) { m.StatusSent? && m.byCollector && m.sid == sid }

  /** Between any two of the collector's status notices a handler has made the row active again. */
  ghost predicate Alternating(trail: seq<Mark>, sid: Id) {
    forall i, j | 0 <= i < j < |trail| && ByCollector(trail[i], sid) && ByCollector(trail[j], sid) ::
      exists k :: i < k < j && trail[k] == Activated(sid)
  }

  ghost predicate NeverResumes(trail: seq<Mark>, sid: Id) {
    forall i | 0 <= i < |trail| && ByCollector(trail[i], sid) :: trail[i].status != "active"
  }

  /** If the trail is armed, every earlier status notice of the collector was followed by an activation. */
  lemma {:induction false} ArmedSinceThen(trail: seq<Mark>, sid: Id, i: nat)
    requires Armed(trail, sid) && i < |trail| && ByCollector(trail[i], sid)
    ensures exists k :: i < k < |trail| && trail[k] == Activated(sid)
  {
    var n := |trail| - 1;
    if trail[n] != Activated(sid) {
      ArmedSinceThen(trail[..n], sid, i);
      var k :| i < k < n && trail[..n][k] == Activated(sid);
      assert trail[k] == Activated(sid);
    }
  }

  lemma AlternatesOn(trail: seq<Mark>, m: Mark, sid: Id)
    requires Alternating(trail, sid) && NeverResumes(trail, sid)
    requires ByCollector(m, sid) ==> Armed(trail, sid) && m.status != "active"
    ensures Alternating(trail + [m], sid) && NeverResumes(trail + [m], sid)
  {
    var t := trail + [m];
    forall i, j | 0 <= i < j < |t| && ByCollector(t[i], sid) && ByCollector(t[j], sid)
      ensures exists k :: i < k < j && t[k] == Activated(sid)
    {
      if j == |trail| {
        ArmedSinceThen(trail, sid, i);
        var k :| i < k < |trail| && trail[k] == Activated(sid);
        assert t[k] == Activated(sid);
      } else {
        var k :| i < k < j && trail[k] == Activated(sid);
        assert t[k] == Activated(sid);
      }
    }
  }

  /** Only the collector leaves the collector's notices. */
  lemma HandlersLeaveNone(s: System, e: Event)
    requires !e.Observe?
    ensures var t, t' := s.w.book.trail, Apply(s, e).w.book.trail;
      && |t| <= |t'| && t'[..|t|] == t
      && forall i, sid | |t| <= i < |t'| :: !ByCollector(t'[i], sid)
  {
    if e.Move? && e.tid in s.threads { NextLeavesNone(s.w, s.threads[e.tid], e.fate); hide Next; }
  }

  ghost predicate NoCollector(w: World, w': World) {
    && |w.book.trail| <= |w'.book.trail| && w'.book.trail[..|w.book.trail|] == w.book.trail
    && (forall i, sid | |w.book.trail| <= i < |w'.book.trail| :: !ByCollector(w'.book.trail[i], sid))
  }

  lemma NextLeavesNone(w: World, pc: Pc, f: Fate)
    ensures NoCollector(w, Next(w, pc, f).world)
  {
    if pc.Topup? { TopupLeavesNone(w, pc.sid, pc.row, pc.topup, f); hide TopupStep; }
    else if pc.Renew? { RenewLeavesNone(w, pc.sid, pc.row, pc.renew, f); hide RenewStep; }
    else if pc.Toggle? { ToggleLeavesNone(w, pc.customer, pc.enable, pc.toggling, f); hide ToggleStep; }
  }

  lemma TopupLeavesNone(w: World, sid: Id, row: Row, t: TopupPhase, f: Fate)
    ensures NoCollector(w, TopupStep(w, sid, row, t, f).world)
  {}

  lemma RenewLeavesNone(w: World, sid: Id, row: Row, p: RenewPhase, f: Fate)
    ensures NoCollector(w, RenewStep(w, sid, row, p, f).world)
  {}

  lemma ToggleLeavesNone(w: World, customer: Id, enable: bool, t: Toggling, f: Fate)
    ensures NoCollector(w, ToggleStep(w, customer, enable, t, f).world)
  {}

  lemma ExtensionAlternates(t: seq<Mark>, t': seq<Mark>, sid: Id)
    requires Alternating(t, sid) && NeverResumes(t, sid) && |t| <= |t'| && t'[..|t|] == t
    requires forall i | |t| <= i < |t'| :: !ByCollector(t'[i], sid)
    ensures Alternating(t', sid) && NeverResumes(t', sid)
  {
    assert forall i | 0 <= i < |t| :: t'[i] == t[i];
    forall i, j | 0 <= i < j < |t'| && ByCollector(t'[i], sid) && ByCollector(t'[j], sid)
      ensures exists k :: i < k < j && t'[k] == Activated(sid)
    {
      assert ByCollector(t[i], sid) && ByCollector(t[j], sid);
      var k :| i < k < j && t[k] == Activated(sid);
      assert t'[k] == Activated(sid);
    }
  }

  lemma OtherNoticesAlternate(trail: seq<Mark>, one: Id, snap: Row, u: Usage, sid: Id)
    requires one != sid && Alternating(trail, sid) && NeverResumes(trail, sid)
    ensures var t := trail + Notices(one, snap, u); Alternating(t, sid) && NeverResumes(t, sid)
  {
    hide Threshold.Level;
    ExtensionAlternates(trail, trail + Notices(one, snap, u), sid);
  }

  lemma OwnNoticesAlternate(trail: seq<Mark>, sid: Id, snap: Row, u: Usage)
    requires snap.status == "active" && Armed(trail, sid) && Alternating(trail, sid) && NeverResumes(trail, sid)
    ensures var t := trail + Notices(sid, snap, u); Alternating(t, sid) && NeverResumes(t, sid)
  {
    hide Threshold.Level, Alternating, NeverResumes, Armed, Floor, High, Sent;
    var level := Threshold.Level(u.used, snap.quota);
    var t1 := trail + [Seen(sid, level)];
    var t2 := if level > snap.notified then t1 + [UsageSent(sid, level)] else t1;
    var t3 := if u.status != "active" && Announced(u.status) then t2 + [StatusSent(sid, u.status, true)] else t2;
    assert trail + Notices(sid, snap, u) == t3;
    hide Notices;
    Appended(trail, Seen(sid, level), sid);
    AlternatesOn(trail, Seen(sid, level), sid);
    if t2 != t1 {
      Appended(t1, UsageSent(sid, level), sid);
      AlternatesOn(t1, UsageSent(sid, level), sid);
    }
    if t3 != t2 { AlternatesOn(t2, StatusSent(sid, u.status, true), sid); }
  }

  /** The collector never announces a resumption, and its status notices alternate with activations. */
  lemma {:induction false} StatusNoticesAlternate(clock: int, es: seq<Event>, sid: Id)
    requires StatusAttentiveRun(Fresh(clock), es, sid)
    ensures var trail := Run(Fresh(clock), es).w.book.trail; Alternating(trail, sid) && NeverResumes(trail, sid)
    decreases |es|
  {
    if es != [] {
      var init, e := es[..|es| - 1], es[|es| - 1];
      assert forall k | 0 <= k < |init| :: init[..k] == es[..k];
      StatusNoticesAlternate(clock, init, sid);
      RunKeepsStatuses(Fresh(clock), init, sid);
      var s := Run(Fresh(clock), init);
      assert StatusAttentive(s, e, sid);
      hide Alternating, NeverResumes, Next;
      if !e.Observe? {
        HandlersLeaveNone(s, e);
        ExtensionAlternates(s.w.book.trail, Apply(s, e).w.book.trail, sid);
      } else if e.sid == sid {
        OwnNoticesAlternate(s.w.book.trail, sid, e.snap, e.usage);
      } else {
        OtherNoticesAlternate(s.w.book.trail, e.sid, e.snap, e.usage, sid);
      }
      hide Notices;
    }
  }

  /** The statuses that the collector has announced for a subscription. */
  function StatusesSent(trail: seq<Mark>, sid: Id): seq<string> {
    if trail == [] then []
    else match trail[|trail| - 1]
      case StatusSent(s, status, byCollector) =>
        StatusesSent(trail[..|trail| - 1], sid) + if s == sid && byCollector then [status] else []
      case _ => StatusesSent(trail[..|trail| - 1], sid)
  }

  lemma SentMore(trail: seq<Mark>, m: Mark, sid: Id)
    ensures StatusesSent(trail + [m], sid)
            == StatusesSent(trail, sid) + if m.StatusSent? && m.sid == sid && m.byCollector then [m.status] else []
  {
    assert (trail + [m])[..|trail|] == trail;
  }

  lemma NoticesSend(trail: seq<Mark>, sid: Id, snap: Row, u: Usage)
    ensures StatusesSent(trail + Notices(sid, snap, u), sid)
            == StatusesSent(trail, sid) + if u.status != snap.status && Announced(u.status) then [u.status] else []
  {
    var level := Threshold.Level(u.used, snap.quota);
    var t1 := trail + [Seen(sid, level)];
    var t2 := if level > snap.notified then t1 + [UsageSent(sid, level)] else t1;
    var t3 := if u.status != snap.status && Announced(u.status) then t2 + [StatusSent(sid, u.status, true)] else t2;
    assert trail + Notices(sid, snap, u) == t3;
    SentMore(trail, Seen(sid, level), sid);
    SentMore(t1, UsageSent(sid, level), sid);
    SentMore(t2, StatusSent(sid, u.status, true), sid);
    hide StatusesSent;
  }

  /**
   * That an announced status is stored is needed: with the same answer the next pass announces it
   * again if and only if the first failed to store it, and then no handler has come between.
   */
  lemma LostStatusRepeats(w: World, sid: Id, u: Usage, wr: Writes)
    requires sid in w.db.subs && w.db.subs[sid].status == "active" && u.status != "active" && Announced(u.status)
    ensures var w1 := ObserveRow(w, sid, w.db.subs[sid], u, wr);
      StatusesSent(PollAgain(w1, sid, u).book.trail, sid)
      == StatusesSent(w.book.trail, sid) + [u.status] + if wr.status then [] else [u.status]
  {
    var w1 := ObserveRow(w, sid, w.db.subs[sid], u, wr);
    NoticesSend(w.book.trail, sid, w.db.subs[sid], u);
    NoticesSend(w1.book.trail, sid, w1.db.subs[sid], u);
    hide StatusesSent, Notices, Threshold.Level;
  }
}
