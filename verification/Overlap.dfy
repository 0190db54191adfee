/** Top-ups and renewals of one subscription, and runs in which they do not overlap. */
module Overlap {
  import opened Domain
  import opened Database
  import opened Protocol
  import opened Structure

  predicate TopsUp(pc: Pc, sid: Id) {
    match pc
    case LoadSub(s, task) => s == sid && task.AddBytes?
    case LoadNode(s, _, task) => s == sid && task.AddBytes?
    case Topup(s, _, _) => s == sid
    case _ => false
  }

  predicate Renews(pc: Pc, sid: Id) {
    match pc
    case LoadSub(s, task) => s == sid && task.NewPeriod?
    case LoadNode(s, _, task) => s == sid && task.NewPeriod?
    case Renew(s, _, _) => s == sid
    case _ => false
  }

  /** A top-up or a renewal of the subscription. */
  predicate Works(pc: Pc, sid: Id) { TopsUp(pc, sid) || Renews(pc, sid) }

  /** Which work is not to overlap: any, or top-ups or renewals among themselves. */
  datatype Kind = AnyWork | Topups | Renewals

  predicate Does(pc: Pc, sid: Id, kind: Kind) {
    match kind
    case AnyWork => Works(pc, sid)
    case Topups => TopsUp(pc, sid)
    case Renewals => Renews(pc, sid)
  }

  predicate Busy(s: System, sid: Id, kind: Kind) {
    exists t :: t in s.threads && Does(s.threads[t], sid, kind)
  }

  predicate AtMostOne(s: System, sid: Id, kind: Kind) {
    forall t, u | t in s.threads && u in s.threads && Does(s.threads[t], sid, kind) && Does(s.threads[u], sid, kind) ::
        t == u
  }

  /** No such request arrives for the subscription while another is being served. */
  predicate Apart(s: System, e: Event, sid: Id, kind: Kind) {
    e.Arrive? && e.tid !in s.threads && IsRequest(e.request) && Does(e.request, sid, kind) ==> !Busy(s, sid, kind)
  }

  ghost predicate ApartRun(s: System, es: seq<Event>, sid: Id, kind: Kind) {
    forall k | 0 <= k < |es| :: Apart(Run(s, es[..k]), es[k], sid, kind)
  }

  /** Work begins only with its request. */
  lemma WorkBegan(w: World, pc: Pc, f: Fate, sid: Id, kind: Kind)
    ensures var o := Next(w, pc, f); o.pc.Some? && Does(o.pc.value, sid, kind) ==> Does(pc, sid, kind)
  {
    hide CreateStep, TopupStep, RenewStep, ToggleStep, LifecycleStep;
    match pc
    case Create(c) => CreateStays(w, c, f);
    case Topup(s, row, t) => TopupStays(w, s, row, t, f);
    case Renew(s, row, r) => RenewStays(w, s, row, r, f);
    case Toggle(c, enable, t) => ToggleStays(w, c, enable, t, f);
    case Lifecycle(s, row, target, acked) => LifecycleStays(w, s, row, target, acked, f);
    case _ =>
  }

  /** The threads after an event: one has moved or ended, or one has arrived. */
  lemma ThreadsAfter(s: System, e: Event, t: Id)
    requires t in Apply(s, e).threads
    ensures var s' := Apply(s, e);
      || (t in s.threads && s'.threads[t] == s.threads[t])
      || (e.Move? && e.tid == t && t in s.threads && Next(s.w, s.threads[t], e.fate).pc == Some(s'.threads[t]))
      || (e.Arrive? && e.tid == t && t !in s.threads && s'.threads[t] == e.request && IsRequest(e.request))
  {
    hide Next;
  }

  lemma StaysApart(s: System, e: Event, sid: Id, kind: Kind)
    requires AtMostOne(s, sid, kind) && Apart(s, e, sid, kind)
    ensures AtMostOne(Apply(s, e), sid, kind)
  {
    var s' := Apply(s, e);
    hide Apply, Next;
    forall t | t in s'.threads && Does(s'.threads[t], sid, kind)
      ensures (t in s.threads && Does(s.threads[t], sid, kind)) || (e.Arrive? && t == e.tid && !Busy(s, sid, kind))
    {
      ThreadsAfter(s, e, t);
      if e.Move? && e.tid == t && t in s.threads { WorkBegan(s.w, s.threads[t], e.fate, sid, kind); }
    }
    hide Does;
  }

  lemma {:induction false} RunStaysApart(s: System, es: seq<Event>, sid: Id, kind: Kind)
    requires AtMostOne(s, sid, kind) && ApartRun(s, es, sid, kind)
    ensures AtMostOne(Run(s, es), sid, kind)
    decreases |es|
  {
    if es != [] {
      var init := es[..|es| - 1];
      assert forall k | 0 <= k < |init| :: init[..k] == es[..k];
      RunStaysApart(s, init, sid, kind);
      StaysApart(Run(s, init), es[|es| - 1], sid, kind);
    }
  }

  // ---------- what a worker leaves alone ----------

  /** Nothing that a top-up or a renewal looks at for this subscription has changed. */
  ghost predicate Untouched(w: World, w': World, sid: Id) {
    sid in w'.db.subs ==>
      && sid in w.db.subs && w'.db.subs[sid].At() == w.db.subs[sid].At()
      && w'.db.subs[sid].quota == w.db.subs[sid].quota
      && w'.db.subs[sid].credit == w.db.subs[sid].credit && w'.db.subs[sid].endAt == w.db.subs[sid].endAt
      && SameTenant(w, w', w.db.subs[sid].At())
  }

  ghost predicate Matches(t: Tenant, quota: int, credit: int, expire: int) {
    t.quota == quota && t.credit == credit && t.expire == expire
  }

  ghost predicate SameTenant(w: World, w': World, a: Addr) {
    a in w'.fleet ==> a in w.fleet && Matches(w'.fleet[a], w.fleet[a].quota, w.fleet[a].credit, w.fleet[a].expire)
  }

  lemma TopupTouchesItsOwn(w: World, sid: Id, row: Row, t: TopupPhase, f: Fate)
    ensures var w' := TopupStep(w, sid, row, t, f).world;
      && (forall a | a != row.At() :: SameTenant(w, w', a))
      && (forall r | r in w'.db.subs && r != sid :: r in w.db.subs && w'.db.subs[r] == w.db.subs[r])
  {}

  lemma RenewTouchesItsOwn(w: World, sid: Id, row: Row, p: RenewPhase, f: Fate)
    ensures var w' := RenewStep(w, sid, row, p, f).world;
      && (forall a | a != row.At() :: SameTenant(w, w', a))
      && (forall r | r in w'.db.subs && r != sid :: r in w.db.subs && w'.db.subs[r] == w.db.subs[r])
  {}

  lemma ToggleTouchesNone(w: World, customer: Id, enable: bool, t: Toggling, f: Fate)
    ensures var w' := ToggleStep(w, customer, enable, t, f).world;
      (forall a :: SameTenant(w, w', a)) && (forall r :: Untouched(w, w', r))
  {}

  lemma CreateTouchesNone(w: World, c: Creating, f: Fate)
    ensures var w' := CreateStep(w, c, f).world;
      && (forall a: Addr | a.tenant != w.next :: SameTenant(w, w', a))
      && (forall r | r in w'.db.subs && r != w.next :: r in w.db.subs && w'.db.subs[r] == w.db.subs[r])
  {}

  lemma OthersTouchNone(w: World, pc: Pc, f: Fate)
    requires !pc.Topup? && !pc.Renew? && !pc.Create?
    ensures var w' := Next(w, pc, f).world;
      (forall a :: SameTenant(w, w', a)) && (forall r :: Untouched(w, w', r))
  {
    if pc.Toggle? { ToggleTouchesNone(w, pc.customer, pc.enable, pc.toggling, f); hide ToggleStep; }
  }

  lemma OthersLeaveAlone(w: World, pc: Pc, f: Fate, sid: Id)
    requires SoundWorld(w) && SoundThread(w, pc) && !Works(pc, sid) && sid < w.next
    ensures Untouched(w, Next(w, pc, f).world, sid)
  {
    if sid in w.db.subs { assert SoundRow(w, sid, w.db.subs[sid]); }
    if pc.Topup? { TopupTouchesItsOwn(w, pc.sid, pc.row, pc.topup, f); hide TopupStep; }
    else if pc.Renew? { RenewTouchesItsOwn(w, pc.sid, pc.row, pc.renew, f); hide RenewStep; }
    else if pc.Create? { CreateTouchesNone(w, pc.creating, f); hide CreateStep; }
    else { OthersTouchNone(w, pc, f); hide Next; }
  }

  /** A tenant that is still private to a create is touched by no one else. */
  lemma SecretsAreLeftAlone(w: World, pc: Pc, f: Fate, row: Row)
    requires SoundWorld(w) && SoundThread(w, pc) && Private(w, row)
    ensures SameTenant(w, Next(w, pc, f).world, row.At())
  {
    if pc.Topup? { TopupTouchesItsOwn(w, pc.sid, pc.row, pc.topup, f); hide TopupStep; }
    else if pc.Renew? { RenewTouchesItsOwn(w, pc.sid, pc.row, pc.renew, f); hide RenewStep; }
    else if pc.Create? { CreateTouchesNone(w, pc.creating, f); hide CreateStep; }
    else { OthersTouchNone(w, pc, f); hide Next; }
  }

  lemma NextRows(w: World, pc: Pc, f: Fate, sid: Id)
    requires SoundWorld(w) && w.next <= sid && !(pc.Create? && pc.creating.Insert?)
    ensures sid !in Next(w, pc, f).world.db.subs
  {
    IdsAreBelowNext(w);
    if !Comes(pc) { NextIsSteady(w, pc, f); hide Next; }
  }

  lemma QuietTouchesNone(s: System, e: Event)
    requires e.Move? ==> e.tid !in s.threads
    ensures var w' := Apply(s, e).w; (forall a :: SameTenant(s.w, w', a)) && (forall r :: Untouched(s.w, w', r))
  {}
}
