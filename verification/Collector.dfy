/**
 * One pass of the usage collector: it lists the active subscriptions in no particular order, polls
 * each on its own node through a cache of clients, and folds the answers into the rows.
 */
module Collector {
  import opened Domain
  import opened Database
  import opened Protocol
  import opened Store
  import Coverage
  import Notifications
  import Overlap
  import Threshold

  /**
   * What a pass meets at each subscription: whether its node's row can be read at that moment, the
   * usage that a tenant's node reports (a missing answer is an error), the fate of its writes, and
   * the time.
   */
  datatype Net = Net(readable: Id -> bool, answers: map<Addr, Usage>, writes: Id -> Writes, clock: Id -> int)
  {
    predicate Answers(sid: Id, row: Row) { readable(sid) && row.At() in answers }
  }

  /** The rows of ListActiveSubscriptions. */
  function Active(db: DB): map<Id, Row> { db.Active() }

  // ---------- a pass, row by row and without a cache ----------

  function Visit(w: World, sid: Id, snap: Row, net: Net): World {
    if net.Answers(sid, snap) then ObserveRow(w, sid, snap, net.answers[snap.At()], net.writes(sid)) else w
  }

  function Pass(w: World, listed: map<Id, Row>, order: seq<Id>, net: Net): World
    requires forall i | 0 <= i < |order| :: order[i] in listed
  {
    if order == [] then w
    else
      var n := |order| - 1;
      Visit(Pass(w, listed, order[..n], net), order[n], listed[order[n]], net)
  }

  // ---------- what a pass amounts to ----------

  /** Every listed row in `done` whose node answered, folded at once. */
  function Updated(db: DB, listed: map<Id, Row>, done: set<Id>, net: Net): DB {
    db.(subs := map s | s in db.subs ::
      if s in done && s in listed && net.Answers(s, listed[s])
      then Folded(db.subs[s], listed[s], net.answers[listed[s].At()], net.writes(s)) else db.subs[s])
  }

  function NoticesOf(sid: Id, snap: Row, net: Net): seq<Mark> {
    if net.Answers(sid, snap) then Notices(sid, snap, net.answers[snap.At()]) else []
  }

  /** The part of a trail that is about one subscription. */
  function About(trail: seq<Mark>, sid: Id): seq<Mark> {
    if trail == [] then []
    else
      var last := trail[|trail| - 1];
      About(trail[..|trail| - 1], sid) + if last.sid == sid then [last] else []
  }

  lemma {:induction false} AboutMore(trail: seq<Mark>, more: seq<Mark>, sid: Id)
    ensures About(trail + more, sid) == About(trail, sid) + About(more, sid)
    decreases |more|
  {
    if more == [] {
      assert trail + more == trail;
    } else {
      var n := |more| - 1;
      AboutMore(trail, more[..n], sid);
      assert (trail + more)[..|trail| + n] == trail + more[..n];
    }
  }

  lemma {:induction false} AboutOne(marks: seq<Mark>, owner: Id, sid: Id)
    requires forall i | 0 <= i < |marks| :: marks[i].sid == owner
    ensures About(marks, sid) == if sid == owner then marks else []
    decreases |marks|
  {
    if marks != [] {
      var init, last := marks[..|marks| - 1], marks[|marks| - 1];
      AboutOne(init, owner, sid);
      assert marks == init + [last];
    }
  }

  lemma NoticesAreOwn(sid: Id, snap: Row, net: Net)
    ensures forall m | m in NoticesOf(sid, snap, net) :: m.sid == sid
  {
    hide Threshold.Level;
  }

  lemma VisitIsSingle(w: World, db0: DB, listed: map<Id, Row>, done: set<Id>, sid: Id, net: Net)
    requires w.db == Updated(db0, listed, done, net) && sid in listed && sid !in done
    ensures Visit(w, sid, listed[sid], net).db == Updated(db0, listed, done + {sid}, net)
  {
    hide Folded, Notices;
    var w' := Visit(w, sid, listed[sid], net);
    assert w'.db.subs == Updated(db0, listed, done + {sid}, net).subs;
  }

  function Ids(order: seq<Id>): set<Id> { set id | id in order }

  /** A pass leaves exactly the updated rows. */
  lemma {:induction false} PassIsUpdate(w: World, listed: map<Id, Row>, order: seq<Id>, net: Net)
    requires Distinct(order) && forall i | 0 <= i < |order| :: order[i] in listed
    ensures Pass(w, listed, order, net).db == Updated(w.db, listed, Ids(order), net)
    decreases |order|
  {
    if order == [] {
      assert Updated(w.db, listed, {}, net).subs == w.db.subs;
      assert Ids(order) == {};
    } else {
      var n := |order| - 1;
      PassIsUpdate(w, listed, order[..n], net);
      assert order == order[..n] + [order[n]];
      assert Ids(order) == Ids(order[..n]) + {order[n]};
      VisitIsSingle(Pass(w, listed, order[..n], net), w.db, listed, Ids(order[..n]), order[n], net);
      hide Visit, Updated;
    }
  }

  /** Each subscription's notices are those of its own answer. */
  lemma {:induction false} PassNotices(w: World, listed: map<Id, Row>, order: seq<Id>, net: Net, sid: Id)
    requires Distinct(order) && forall i | 0 <= i < |order| :: order[i] in listed
    ensures About(Pass(w, listed, order, net).book.trail, sid)
            == About(w.book.trail, sid) + OwnNotices(listed, order, net, sid)
    decreases |order|
  {
    hide Visit, NoticesOf, About;
    if order != [] {
      var n := |order| - 1;
      var one, before := order[n], Pass(w, listed, order[..n], net);
      OwnMore(listed, order, net, sid);
      assert Distinct(order[..n]);
      hide Distinct, OwnNotices;
      PassNotices(w, listed, order[..n], net, sid);
      VisitNotices(before, one, listed[one], net, sid);
    }
  }

  lemma OwnMore(listed: map<Id, Row>, order: seq<Id>, net: Net, sid: Id)
    requires Distinct(order) && order != [] && forall i | 0 <= i < |order| :: order[i] in listed
    ensures var n := |order| - 1; var one := order[n];
      OwnNotices(listed, order, net, sid)
      == OwnNotices(listed, order[..n], net, sid) + if sid == one then NoticesOf(one, listed[one], net) else []
  {
    hide NoticesOf;
    var n := |order| - 1;
    assert order == order[..n] + [order[n]] && order[n] !in order[..n];
  }

  /** The notices of a subscription if it is listed. */
  function OwnNotices(listed: map<Id, Row>, order: seq<Id>, net: Net, sid: Id): seq<Mark>
    requires forall i | 0 <= i < |order| :: order[i] in listed
  {
    if sid in order then NoticesOf(sid, listed[sid], net) else []
  }

  lemma VisitNotices(w: World, one: Id, snap: Row, net: Net, sid: Id)
    ensures About(Visit(w, one, snap, net).book.trail, sid)
            == About(w.book.trail, sid) + if sid == one then NoticesOf(one, snap, net) else []
  {
    hide Folded, Notices;
    assert Visit(w, one, snap, net).book.trail == w.book.trail + NoticesOf(one, snap, net);
    AboutMore(w.book.trail, NoticesOf(one, snap, net), sid);
    NoticesAreOwn(one, snap, net);
    AboutOne(NoticesOf(one, snap, net), one, sid);
  }

  /**
   * The unordered listing is harmless: any two orders leave the same rows, and the same notices for
   * each subscription.
   */
  lemma OrderDoesNotMatter(w: World, listed: map<Id, Row>, one: seq<Id>, other: seq<Id>, net: Net, sid: Id)
    requires Lists(one, listed) && Lists(other, listed)
    ensures var a, b := Pass(w, listed, one, net), Pass(w, listed, other, net);
      a.db == b.db && About(a.book.trail, sid) == About(b.book.trail, sid)
  {
    PassIsUpdate(w, listed, one, net);
    PassIsUpdate(w, listed, other, net);
    PassNotices(w, listed, one, net, sid);
    PassNotices(w, listed, other, net, sid);
    assert Ids(one) == Ids(other);
  }

  // ---------- a second pass ----------

  /** What a poll writes to the row is stored; the sample may be lost. */
  predicate Kept(wr: Writes) { wr.used && wr.notified && wr.status }

  /** A row that has taken in an answer takes it in again without change and without notice. */
  lemma FoldingTwice(sid: Id, row: Row, u: Usage, wr: Writes)
    requires Kept(wr)
    ensures var row' := Folded(row, row, u, wr);
      Folded(row', row', u, wr) == row' && Notices(sid, row', u) == [Seen(sid, Threshold.Level(u.used, row.quota))]
  {
    hide Threshold.Level;
  }

  /** The row takes in its answer without change and without notice. */
  predicate Settled(db: DB, sid: Id, net: Net) {
    sid in db.subs &&
    (net.Answers(sid, db.subs[sid]) ==>
      var row, u := db.subs[sid], net.answers[db.subs[sid].At()];
      Folded(row, row, u, net.writes(sid)) == row
      && Notices(sid, row, u) == [Seen(sid, Threshold.Level(u.used, row.quota))])
  }

  lemma SettlesRow(db: DB, order: seq<Id>, net: Net, sid: Id)
    requires Lists(order, Active(db)) && Kept(net.writes(sid))
    requires sid in Active(Updated(db, Active(db), Ids(order), net))
    ensures Settled(Updated(db, Active(db), Ids(order), net), sid, net)
  {
    hide Folded, Notices;
    var row := db.subs[sid];
    assert Updated(db, Active(db), Ids(order), net).subs[sid].At() == row.At() by { FoldedStays(row, row); }
    if net.Answers(sid, row) {
      FoldingTwice(sid, row, net.answers[row.At()], net.writes(sid));
      FoldedQuota(row, net.answers[row.At()], net.writes(sid));
    }
  }

  lemma FoldedStays(row: Row, snap: Row)
    ensures forall u, wr :: Folded(row, snap, u, wr).At() == row.At()
  {
    hide Threshold.Level;
  }

  lemma FoldedQuota(row: Row, u: Usage, wr: Writes)
    ensures Folded(row, row, u, wr).quota == row.quota
  {
    hide Threshold.Level;
  }

  /** A pass leaves the row as it is, and sends nothing for it. */
  ghost predicate Spared(w: World, order: seq<Id>, net: Net, sid: Id)
    requires Lists(order, Active(w.db))
  {
    var w', seen := Pass(w, Active(w.db), order, net), OwnNotices(Active(w.db), order, net, sid);
    && (sid in w'.db.subs <==> sid in w.db.subs) && (sid in w.db.subs ==> w'.db.subs[sid] == w.db.subs[sid])
    && About(w'.book.trail, sid) == About(w.book.trail, sid) + seen && forall m | m in seen :: m.Seen?
  }

  /** With the same answer, a second pass leaves a row whose writes were stored as it is, and sends nothing for it. */
  lemma SecondPassSparesRow(w: World, order: seq<Id>, order': seq<Id>, net: Net, sid: Id)
    requires Lists(order, Active(w.db)) && Lists(order', Active(Pass(w, Active(w.db), order, net).db))
    requires Kept(net.writes(sid))
    ensures Spared(Pass(w, Active(w.db), order, net), order', net, sid)
  {
    hide Pass, Folded, Notices, About;
    PassIsUpdate(w, Active(w.db), order, net);
    var w' := Pass(w, Active(w.db), order, net);
    if sid in Active(w'.db) { SettlesRow(w.db, order, net, sid); }
    hide Updated, Lists, Kept;
    SettledIsSpared(w', order', net, sid);
  }

  lemma SettledIsSpared(w: World, order: seq<Id>, net: Net, sid: Id)
    requires Lists(order, Active(w.db)) && (sid in Active(w.db) ==> Settled(w.db, sid, net))
    ensures Spared(w, order, net, sid)
  {
    hide Pass, Folded, Notices, About;
    PassIsUpdate(w, Active(w.db), order, net);
    PassNotices(w, Active(w.db), order, net, sid);
    hide Lists;
  }

  /** So a second pass over what is still active changes no row and sends nothing if all rows' writes were stored. */
  lemma SecondPassIsSilent(w: World, order: seq<Id>, order': seq<Id>, net: Net)
    requires Lists(order, Active(w.db)) && Lists(order', Active(Pass(w, Active(w.db), order, net).db))
    requires forall sid | sid in w.db.subs :: Kept(net.writes(sid))
    ensures var w' := Pass(w, Active(w.db), order, net);
      var w'' := Pass(w', Active(w'.db), order', net);
      && w''.db == w'.db
      && w'.book.trail <= w''.book.trail && forall m | m in w''.book.trail[|w'.book.trail|..] :: m.Seen?
  {
    var w' := Pass(w, Active(w.db), order, net);
    SameRows(w, Active(w.db), order, net);
    forall sid | sid in w.db.subs ensures Kept(net.writes(sid)) {}
    forall sid | sid in w'.db.subs
      ensures Spared(w', order', net, sid)
    { SecondPassSparesRow(w, order, order', net, sid); }
    hide Pass, Kept, Spared;
    SparedIsSilent(w', order', net);
  }

  lemma SameRows(w: World, listed: map<Id, Row>, order: seq<Id>, net: Net)
    requires Distinct(order) && forall i | 0 <= i < |order| :: order[i] in listed
    ensures var w' := Pass(w, listed, order, net);
      w'.db == w.db.(subs := w'.db.subs) && w'.db.subs.Keys == w.db.subs.Keys
  {
    PassIsUpdate(w, listed, order, net);
    hide Pass, Folded;
  }

  lemma SparedIsSilent(w: World, order: seq<Id>, net: Net)
    requires Lists(order, Active(w.db)) && forall sid | sid in w.db.subs :: Spared(w, order, net, sid)
    ensures var w' := Pass(w, Active(w.db), order, net);
      && w'.db == w.db
      && w.book.trail <= w'.book.trail && forall m | m in w'.book.trail[|w.book.trail|..] :: m.Seen?
  {
    var w' := Pass(w, Active(w.db), order, net);
    SameRows(w, Active(w.db), order, net);
    PassAppends(w, Active(w.db), order, net);
    assert forall sid | sid in Active(w.db) :: sid in w.db.subs;
    hide Pass, Lists, NoticesOf, Active, About;
    assert w'.db.subs == w.db.subs;
    forall m | m in w'.book.trail[|w.book.trail|..] ensures m.Seen? {
      assert Spared(w, order, net, m.sid);
      OnlySeen(w.book.trail, w'.book.trail, OwnNotices(Active(w.db), order, net, m.sid), m);
    }
  }

  lemma OnlySeen(trail: seq<Mark>, trail': seq<Mark>, seen: seq<Mark>, m: Mark)
    requires trail <= trail' && m in trail'[|trail|..]
    requires About(trail', m.sid) == About(trail, m.sid) + seen && forall x | x in seen :: x.Seen?
    ensures m.Seen?
  {
    hide About;
    var more := trail'[|trail|..];
    assert trail' == trail + more;
    AboutMore(trail, more, m.sid);
    AboutItself(more, m);
    SameRest(About(trail, m.sid), About(more, m.sid), seen);
  }

  lemma SameRest(a: seq<Mark>, b: seq<Mark>, c: seq<Mark>)
    requires a + b == a + c
    ensures b == c
  {
    assert b == (a + b)[|a|..] && c == (a + c)[|a|..];
  }

  /** A pass only adds to the trail, and only marks of stored subscriptions. */
  lemma {:induction false} PassAppends(w: World, listed: map<Id, Row>, order: seq<Id>, net: Net)
    requires forall i | 0 <= i < |order| :: order[i] in listed
    ensures var trail := Pass(w, listed, order, net).book.trail;
      w.book.trail <= trail && forall m | m in trail[|w.book.trail|..] :: m.sid in listed
    decreases |order|
  {
    if order != [] {
      hide Folded, Notices;
      var n := |order| - 1;
      PassAppends(w, listed, order[..n], net);
      NoticesAreOwn(order[n], listed[order[n]], net);
      var before := Pass(w, listed, order[..n], net);
      assert Visit(before, order[n], listed[order[n]], net).book.trail
        == before.book.trail + NoticesOf(order[n], listed[order[n]], net);
    }
  }

  lemma {:induction false} AboutItself(trail: seq<Mark>, m: Mark)
    requires m in trail
    ensures m in About(trail, m.sid)
    decreases |trail|
  {
    var init, last := trail[..|trail| - 1], trail[|trail| - 1];
    if last != m {
      assert trail == init + [last];
      AboutItself(init, m);
    }
  }

  // ---------- a pass is a run of the machine ----------

  function Observations(listed: map<Id, Row>, order: seq<Id>, net: Net): seq<Event>
    requires forall i | 0 <= i < |order| :: order[i] in listed
  {
    if order == [] then []
    else
      var sid := order[|order| - 1];
      Observations(listed, order[..|order| - 1], net)
      + if net.Answers(sid, listed[sid])
        then [Observe(sid, listed[sid], net.answers[listed[sid].At()], net.writes(sid))] else []
  }

  lemma {:induction false} PassIsARun(s: System, listed: map<Id, Row>, order: seq<Id>, net: Net)
    requires forall i | 0 <= i < |order| :: order[i] in listed
    ensures Run(s, Observations(listed, order, net)) == s.(w := Pass(s.w, listed, order, net))
    decreases |order|
  {
    if order != [] {
      hide Run, ObserveRow;
      var n := |order| - 1;
      PassIsARun(s, listed, order[..n], net);
      var before, snap := Observations(listed, order[..n], net), listed[order[n]];
      if net.Answers(order[n], snap) {
        RunStep(s, before, Observe(order[n], snap, net.answers[snap.At()], net.writes(order[n])));
      } else {
        assert Observations(listed, order, net) == before;
      }
    }
  }

  /** The event decides on a row as it is. */
  predicate Current(s: System, s': System, e: Event, net: Net) {
    && e.Observe? && s'.threads == s.threads
    && e.sid in s'.w.db.subs && e.snap == s'.w.db.subs[e.sid] && e.snap.status == "active"
    && e.writes == net.writes(e.sid)
    && e.snap.At() in net.answers && e.usage == net.answers[e.snap.At()]
    && e.sid in s.w.db.subs && e.snap == s.w.db.subs[e.sid]
  }

  /** A pass with nothing in between decides on every row as it is, whatever the order. */
  lemma {:induction false} ObservationIsCurrent(s: System, order: seq<Id>, net: Net, k: nat)
    requires Distinct(order) && forall i | 0 <= i < |order| :: order[i] in Active(s.w.db)
    requires k < |Observations(Active(s.w.db), order, net)|
    ensures var es := Observations(Active(s.w.db), order, net);
      Current(s, Run(s, es[..k]), es[k], net)
    decreases |order|
  {
    if order != [] {
      var n := |order| - 1;
      var before, es := Observations(Active(s.w.db), order[..n], net), Observations(Active(s.w.db), order, net);
      if k < |before| {
        ObservationIsCurrent(s, order[..n], net, k);
        assert es[..k] == before[..k] && es[k] == before[k];
      } else {
        NextIsCurrent(s, order, net);
        assert es[..k] == before;
      }
      hide Run, Current;
    }
  }

  lemma NextIsCurrent(s: System, order: seq<Id>, net: Net)
    requires Distinct(order) && forall i | 0 <= i < |order| :: order[i] in Active(s.w.db)
    requires order != []
    ensures var n := |order| - 1;
      var sid, snap := order[n], Active(s.w.db)[order[n]];
      net.Answers(sid, snap) ==>
        Current(s, Run(s, Observations(Active(s.w.db), order[..n], net)),
                Observe(sid, snap, net.answers[snap.At()], net.writes(sid)), net)
  {
    hide Run, Pass;
    var n := |order| - 1;
    PassIsARun(s, Active(s.w.db), order[..n], net);
    PassIsUpdate(s.w, Active(s.w.db), order[..n], net);
    assert order[n] !in Ids(order[..n]);
    hide Observations;
  }

  /** So what Notifications proves of attentive runs covers passes that no handler interrupts. */
  lemma PassesAreAttentive(s: System, order: seq<Id>, net: Net, sid: Id)
    requires Lists(order, Active(s.w.db))
    ensures var es := Observations(Active(s.w.db), order, net);
      && (net.writes(sid).notified ==> Notifications.LevelAttentiveRun(s, es, sid))
      && (net.writes(sid).status ==> Notifications.StatusAttentiveRun(s, es, sid))
  {
    var es := Observations(Active(s.w.db), order, net);
    forall k | 0 <= k < |es|
      ensures net.writes(sid).notified ==> Notifications.LevelAttentive(Run(s, es[..k]), es[k], sid)
      ensures net.writes(sid).status ==> Notifications.StatusAttentive(Run(s, es[..k]), es[k], sid)
    {
      ObservationIsCurrent(s, order, net, k);
      hide Run, Observations, Threshold.Level;
    }
    hide Observations, Run;
  }

  /** No top-up relies on the row, and the level of its node's answer is stored. */
  predicate Undisturbed(s: System, net: Net, sid: Id) {
    sid in s.w.db.subs ==> var row := s.w.db.subs[sid];
      && !Coverage.Relied(s, sid)
      && (row.At() in net.answers ==> Coverage.StoresLevel(row, net.answers[row.At()], net.writes(sid)))
  }

  /** And what Coverage proves of calm runs covers them for every such row. */
  lemma PassesAreCalm(s: System, order: seq<Id>, net: Net, sid: Id, kind: Overlap.Kind)
    requires Lists(order, Active(s.w.db))
    requires Undisturbed(s, net, sid)
    ensures Coverage.CalmRun(s, Observations(Active(s.w.db), order, net), sid, kind)
  {
    var es := Observations(Active(s.w.db), order, net);
    forall k | 0 <= k < |es| ensures Coverage.Calm(Run(s, es[..k]), es[k], sid, kind) {
      ObservationIsCurrent(s, order, net, k);
      CurrentIsCalm(s, Run(s, es[..k]), es[k], net, sid, kind);
      hide Run, Observations, Current, Coverage.Calm;
    }
  }

  lemma CurrentIsCalm(s: System, s': System, e: Event, net: Net, sid: Id, kind: Overlap.Kind)
    requires Current(s, s', e, net) && Undisturbed(s, net, sid)
    ensures Coverage.Calm(s', e, sid, kind)
  {}

  // ---------- the cache of clients ----------

  /**
   * Whether a pass that caches clients polls a listed subscription: the row of its node could be
   * read at its own turn, or had been read at the turn of an earlier subscription on that node.
   */
  ghost predicate Reached(listed: map<Id, Row>, order: seq<Id>, net: Net, sid: Id) {
    exists j, k | 0 <= j <= k < |order| ::
      order[k] == sid && sid in listed && order[j] in listed && listed[order[j]].node == listed[sid].node
      && net.readable(order[j])
  }

  /** What the pass with its cache meets, as seen by an uncached one. */
  ghost function Cached(net: Net, listed: map<Id, Row>, order: seq<Id>): Net {
    net.(readable := (sid: Id) => Reached(listed, order, net, sid))
  }

  /** A cache never keeps a subscription from being polled. */
  lemma CachePollsNoLess(listed: map<Id, Row>, order: seq<Id>, net: Net, sid: Id)
    requires Lists(order, listed) && sid in listed && net.readable(sid)
    ensures Cached(net, listed, order).readable(sid)
  {
    var k :| 0 <= k < |order| && order[k] == sid;
    assert Reached(listed, order, net, sid);
  }

  /** All subscriptions on one node fare alike when its row is read. */
  ghost predicate Uniform(listed: map<Id, Row>, net: Net) {
    forall a, b | a in listed && b in listed && listed[a].node == listed[b].node :: net.readable(a) == net.readable(b)
  }

  /** In that order the cache polls just those subscriptions that an uncached pass polls. */
  ghost predicate Invisible(net: Net, listed: map<Id, Row>, order: seq<Id>) {
    forall sid | sid in listed :: Cached(net, listed, order).readable(sid) == net.readable(sid)
  }

  /** The cache makes no difference in any order exactly when reads of one node's row do not vary during the pass. */
  lemma CacheIsInvisibleExactly(listed: map<Id, Row>, net: Net)
    ensures (forall order | Lists(order, listed) :: Invisible(net, listed, order)) <==> Uniform(listed, net)
  {
    if Uniform(listed, net) {
      forall order | Lists(order, listed) ensures Invisible(net, listed, order) {
        forall sid | sid in listed && net.readable(sid) { CachePollsNoLess(listed, order, net, sid); }
      }
    } else {
      var a, b :| a in listed && b in listed && listed[a].node == listed[b].node && net.readable(a) && !net.readable(b);
      var rest := OrderOf(listed.Keys - {a});
      var order := [a] + rest;
      assert Lists(order, listed) by {
        assert forall id :: id in order <==> id == a || id in rest;
      }
      var k :| 0 <= k < |order| && order[k] == b;
      assert order[0] == a;
      assert Reached(listed, order, net, b);
      assert !Invisible(net, listed, order);
    }
  }

  lemma {:induction false} OrderOf(ids: set<Id>) returns (order: seq<Id>)
    ensures Distinct(order) && forall id :: id in order <==> id in ids
  {
    if ids == {} {
      order := [];
    } else {
      var id :| id in ids;
      var rest := OrderOf(ids - {id});
      order := [id] + rest;
    }
  }

  /** Then the pass with its cache leaves what an uncached one leaves, in whatever order. */
  lemma InvisibleCacheUpdatesAlike(db: DB, listed: map<Id, Row>, order: seq<Id>, net: Net)
    requires Lists(order, listed) && Uniform(listed, net)
    ensures Updated(db, listed, Ids(order), Cached(net, listed, order)) == Updated(db, listed, Ids(order), net)
  {
    CacheIsInvisibleExactly(listed, net);
    assert Invisible(net, listed, order);
    hide Folded, Uniform, Lists, Reached;
    var net' := Cached(net, listed, order);
    forall s | s in listed ensures net'.Answers(s, listed[s]) == net.Answers(s, listed[s]) {
      assert net'.readable(s) == net.readable(s);
    }
    assert Updated(db, listed, Ids(order), net').subs == Updated(db, listed, Ids(order), net).subs;
  }

  // ---------- what a pass leaves, row by row ----------

  /** The collector polls active subscriptions that have a tenant. */
  predicate Polls(db: DB, s: Id) { s in db.subs && db.subs[s].tenant != 0 && db.subs[s].status == "active" }

  /** It can reach the subscription's node: at its turn, or at that of an earlier one on the same node. */
  ghost predicate ReachesNode(db: DB, order: seq<Id>, net: Net, s: Id) {
    exists j, k | 0 <= j <= k < |order| ::
      order[k] == s && Polls(db, s) && Polls(db, order[j]) && db.subs[order[j]].node == db.subs[s].node
      && net.readable(order[j])
  }

  ghost predicate Answered(db: DB, order: seq<Id>, net: Net, s: Id) {
    ReachesNode(db, order, net, s) && db.subs[s].At() in net.answers
  }

  /** A row that has been polled: usage, threshold and status are written as far as the database carries it out. */
  ghost predicate TookIn(row: Row, row': Row, u: Usage, wr: Writes) {
    var level := Threshold.Level(u.used, row.quota);
    row' == row.(
      used := if wr.used then u.used else row.used,
      notified := if wr.notified && level > row.notified then level else row.notified,
      status := if wr.status && u.status != "" && u.status != row.status then u.status else row.status)
  }

  /**
   * The marks that a poll adds: the level, a usage event if it is a new one, and a status event if
   * it is a known one.
   */
  ghost predicate Marks(marks: seq<Mark>, s: Id, row: Row, u: Usage) {
    var level := Threshold.Level(u.used, row.quota);
    marks == [Seen(s, level)]
      + (if level > row.notified then [UsageSent(s, level)] else [])
      + (if u.status != row.status && (u.status == "suspended" || u.status == "active" || u.status == "expired")
         then [StatusSent(s, u.status, true)] else [])
  }

  /** After a pass every answered row has taken in its answer, and no other row has changed or been announced. */
  ghost predicate Collected(db: DB, db': DB, order: seq<Id>, net: Net, marks: seq<Mark>, samples: seq<Sample>) {
    && Distinct(order) && (forall s :: s in order <==> Polls(db, s))
    && db' == db.(subs := db'.subs) && db'.subs.Keys == db.subs.Keys
    && (forall s | s in db.subs ::
          if Answered(db, order, net, s)
          then TookIn(db.subs[s], db'.subs[s], net.answers[db.subs[s].At()], net.writes(s))
               && Marks(About(marks, s), s, db.subs[s], net.answers[db.subs[s].At()])
          else db'.subs[s] == db.subs[s] && About(marks, s) == [])
    && (forall s | Answered(db, order, net, s) && net.writes(s).sample :: SampleFor(db, net, s) in samples)
    && (forall x | x in samples ::
          exists s :: Answered(db, order, net, s) && net.writes(s).sample && x == SampleFor(db, net, s))
  }

  function SampleFor(db: DB, net: Net, s: Id): Sample
    requires s in db.subs && db.subs[s].At() in net.answers
  {
    var row, u := db.subs[s], net.answers[db.subs[s].At()];
    Sample(row.tenant, row.node, u.period, net.clock(s), u.used)
  }

  lemma FoldedTakesIn(row: Row, u: Usage, wr: Writes)
    ensures TookIn(row, Folded(row, row, u, wr), u, wr)
  {
    hide Threshold.Level;
  }

  lemma NoticesAreMarks(s: Id, row: Row, u: Usage)
    requires row.status == "active"
    ensures Marks(Notices(s, row, u), s, row, u)
  {
    hide Threshold.Level;
  }

  lemma ReachedAlike(db: DB, order: seq<Id>, net: Net, s: Id)
    requires Lists(order, Active(db))
    ensures Cached(net, Active(db), order).readable(s) <==> ReachesNode(db, order, net, s)
  {
    var listed := Active(db);
    if Reached(listed, order, net, s) {
      var j, k :| 0 <= j <= k < |order| && order[k] == s && order[j] in listed
                && listed[order[j]].node == listed[s].node
                && net.readable(order[j]);
      assert Polls(db, s) && Polls(db, order[j]);
    }
    if ReachesNode(db, order, net, s) {
      var j, k :| 0 <= j <= k < |order| && order[k] == s && Polls(db, order[j])
                && db.subs[order[j]].node == db.subs[s].node && net.readable(order[j]);
      assert order[j] in listed;
    }
  }

  lemma {:induction false} AllNoticesAbout(listed: map<Id, Row>, order: seq<Id>, net: Net, s: Id)
    requires Distinct(order) && forall i | 0 <= i < |order| :: order[i] in listed
    ensures About(AllNotices(listed, order, net), s) == OwnNotices(listed, order, net, s)
    decreases |order|
  {
    if order != [] {
      var n := |order| - 1;
      var one := order[n];
      OwnMore(listed, order, net, s);
      assert Distinct(order[..n]);
      hide Distinct, OwnNotices, NoticesOf, About;
      AllNoticesAbout(listed, order[..n], net, s);
      AboutMore(AllNotices(listed, order[..n], net), NoticesOf(one, listed[one], net), s);
      NoticesAreOwn(one, listed[one], net);
      AboutOne(NoticesOf(one, listed[one], net), one, s);
    }
  }

  lemma {:induction false} AllSamplesAre(listed: map<Id, Row>, order: seq<Id>, net: Net)
    requires forall i | 0 <= i < |order| :: order[i] in listed
    ensures forall i | 0 <= i < |order| :: forall x | x in SamplesOf(order[i], listed[order[i]], net) ::
              x in AllSamples(listed, order, net)
    ensures forall x | x in AllSamples(listed, order, net) ::
              exists i :: 0 <= i < |order| && x in SamplesOf(order[i], listed[order[i]], net)
    decreases |order|
  {
    if order != [] {
      hide SamplesOf;
      var n := |order| - 1;
      AllSamplesAre(listed, order[..n], net);
      forall x | x in AllSamples(listed, order, net)
        ensures exists i :: 0 <= i < |order| && x in SamplesOf(order[i], listed[order[i]], net)
      {
        if x in AllSamples(listed, order[..n], net) {
          var i :| 0 <= i < n && x in SamplesOf(order[..n][i], listed[order[..n][i]], net);
          assert order[..n][i] == order[i];
        } else {
          assert x in SamplesOf(order[n], listed[order[n]], net);
        }
      }
    }
  }

  /** A pass in the terms of its implementation leaves just that. */
  lemma PassCollects(db: DB, order: seq<Id>, net: Net)
    requires Lists(order, Active(db))
    ensures var listed, net' := Active(db), Cached(net, Active(db), order);
      Collected(db, Updated(db, listed, Ids(order), net'), order, net,
                AllNotices(listed, order, net'), AllSamples(listed, order, net'))
  {
    var listed, net' := Active(db), Cached(net, Active(db), order);
    var db', marks := Updated(db, listed, Ids(order), net'), AllNotices(listed, order, net');
    forall s ensures s in order <==> Polls(db, s) { assert s in order <==> s in listed; }
    forall s | s in db.subs
      ensures if Answered(db, order, net, s)
        then TookIn(db.subs[s], db'.subs[s], net.answers[db.subs[s].At()], net.writes(s))
             && Marks(About(marks, s), s, db.subs[s], net.answers[db.subs[s].At()])
        else db'.subs[s] == db.subs[s] && About(marks, s) == []
    {
      RowCollects(db, order, net, s);
    }
    SamplesCollect(db, order, net);
    hide Answered, TookIn, Marks, AllNotices, AllSamples, About, Cached, Polls, Active;
  }

  lemma RowCollects(db: DB, order: seq<Id>, net: Net, s: Id)
    requires Lists(order, Active(db)) && s in db.subs
    ensures var listed, net' := Active(db), Cached(net, Active(db), order);
      var db', marks := Updated(db, listed, Ids(order), net'), AllNotices(listed, order, net');
      s in db'.subs
      && if Answered(db, order, net, s)
         then TookIn(db.subs[s], db'.subs[s], net.answers[db.subs[s].At()], net.writes(s))
              && Marks(About(marks, s), s, db.subs[s], net.answers[db.subs[s].At()])
         else db'.subs[s] == db.subs[s] && About(marks, s) == []
  {
    var listed, net' := Active(db), Cached(net, Active(db), order);
    ReachedAlike(db, order, net, s);
    AllNoticesAbout(listed, order, net', s);
    if Answered(db, order, net, s) {
      var u := net.answers[db.subs[s].At()];
      FoldedTakesIn(db.subs[s], u, net.writes(s));
      NoticesAreMarks(s, db.subs[s], u);
    }
    hide Folded, Notices, TookIn, Marks, About, AllNotices, Reached;
  }

  lemma SamplesCollect(db: DB, order: seq<Id>, net: Net)
    requires Lists(order, Active(db))
    ensures var samples := AllSamples(Active(db), order, Cached(net, Active(db), order));
      && (forall s | Answered(db, order, net, s) && net.writes(s).sample :: SampleFor(db, net, s) in samples)
      && (forall x | x in samples ::
            exists s :: Answered(db, order, net, s) && net.writes(s).sample && x == SampleFor(db, net, s))
  {
    var listed, net' := Active(db), Cached(net, Active(db), order);
    AllSamplesAre(listed, order, net');
    forall s | Answered(db, order, net, s) && net.writes(s).sample
      ensures SampleFor(db, net, s) in AllSamples(listed, order, net')
    {
      ReachedAlike(db, order, net, s);
      var i :| 0 <= i < |order| && order[i] == s;
      assert SampleFor(db, net, s) in SamplesOf(order[i], listed[order[i]], net');
      hide Reached, ReachesNode;
    }
    forall x | x in AllSamples(listed, order, net')
      ensures exists s :: Answered(db, order, net, s) && net.writes(s).sample && x == SampleFor(db, net, s)
    {
      var i :| 0 <= i < |order| && x in SamplesOf(order[i], listed[order[i]], net');
      ReachedAlike(db, order, net, order[i]);
      assert Answered(db, order, net, order[i]) && x == SampleFor(db, net, order[i]);
    }
  }

  // ---------- the code ----------

  /** A connection to one node. */
  datatype Client = Client(node: Id)

  class UsageCollector {
    const store: Store
    ghost var trail: seq<Mark>       // the events emitted, and the levels computed

    constructor (store: Store)
      ensures this.store == store && trail == []
    {
      this.store, trail := store, [];
    }

    /** The tenant's usage as the client's node reports it. */
    method TenantUsage(client: Client, tenant: Id, net: Net) returns (usage: Option<Usage>)
      ensures var at := Addr(client.node, tenant); usage == if at in net.answers then Some(net.answers[at]) else None
    {
      var at := Addr(client.node, tenant);
      if at in net.answers { usage := Some(net.answers[at]); } else { usage := None; }
    }

    method EmitUsageEvents(sid: Id, snap: Row, used: int, up: bool)
      modifies this`trail, store`subs
      ensures var level := Threshold.Level(used, snap.quota);
        && store.View() == (if up && level > snap.notified
                            then old(store.View()).SetNotified(sid, level) else old(store.View()))
        && trail == old(trail) + [Seen(sid, level)] + if level > snap.notified then [UsageSent(sid, level)] else []
    {
      var level := Threshold.Level(used, snap.quota);
      trail := trail + [Seen(sid, level)];
      if level <= snap.notified { return; }
      trail := trail + [UsageSent(sid, level)];
      store.UpdateSubscriptionNotified(sid, level, up);
    }

    method EmitStatusEvent(sid: Id, status: string)
      modifies this`trail
      ensures trail == old(trail) + if Announced(status) then [StatusSent(sid, status, true)] else []
    {
      if status == "suspended" || status == "active" || status == "expired" {
        trail := trail + [StatusSent(sid, status, true)];
      }
    }

    /** What follows a successful poll. */
    method Fold(sid: Id, snap: Row, usage: Usage, writes: Writes, now: int)
      modifies this`trail, store`subs, store`samples
      ensures store.View() == if sid !in old(store.subs) then old(store.View())
                              else old(store.View()).Insert(sid, Folded(old(store.subs)[sid], snap, usage, writes))
      ensures trail == old(trail) + Notices(sid, snap, usage)
      ensures store.samples
              == old(store.samples)
                 + if writes.sample then [Sample(snap.tenant, snap.node, usage.period, now, usage.used)] else []
    {
      hide Threshold.Level, Announced;
      store.UpdateSubscriptionUsage(sid, usage.used, writes.used);
      store.RecordUsage(Sample(snap.tenant, snap.node, usage.period, now, usage.used), writes.sample);
      EmitUsageEvents(sid, snap, usage.used, writes.notified);
      if usage.status != "" && usage.status != snap.status {
        var _ := store.UpdateSubscriptionStatus(sid, usage.status, writes.status);
        EmitStatusEvent(sid, usage.status);
      }
    }

    /** Polls one subscription through its node's client. */
    method Poll(client: Client, sid: Id, snap: Row, net: Net)
      requires client == Client(snap.node) && sid in store.View().subs
      modifies this`trail, store`subs, store`samples
      ensures var polled := net.(readable := (_: Id) => true);
        && store.View() == Visited(old(store.View()), sid, snap, polled)
        && trail == old(trail) + NoticesOf(sid, snap, polled)
        && store.samples == old(store.samples) + SamplesOf(sid, snap, polled)
    {
      hide Folded, Notices;
      var usage := TenantUsage(client, snap.tenant, net);
      if usage.None? { return; }
      Fold(sid, snap, usage.value, net.writes(sid), net.clock(sid));
    }

    /** The rows are visited in the order in which the database lists them. */
    method CollectUsageOnce(net: Net, up: bool) returns (ghost order: seq<Id>)
      requires store.View().ForeignKeys()
      modifies this`trail, store`subs, store`samples
      ensures !up ==> store.View() == old(store.View()) && trail == old(trail) && store.samples == old(store.samples)
      ensures up ==> var listed := Active(old(store.View())); var net' := Cached(net, listed, order);
        && Lists(order, listed)
        && store.View() == Updated(old(store.View()), listed, Ids(order), net')
        && trail == old(trail) + AllNotices(listed, order, net')
        && store.samples == old(store.samples) + AllSamples(listed, order, net')
      ensures up ==>
        && |old(trail)| <= |trail| && trail[..|old(trail)|] == old(trail)
        && |old(store.samples)| <= |store.samples| && store.samples[..|old(store.samples)|] == old(store.samples)
        && Collected(old(store.View()), store.View(), order, net, trail[|old(trail)|..],
                     store.samples[|old(store.samples)|..])
    {
      order := [];
      var listing := store.ListActiveSubscriptions(up);
      if listing.None? { return; }
      var listed := listing.value;
      assert listed == Active(store.View());
      var ids := store.Query(listed);
      order := ids;
      assert forall id | id in listed :: listed[id].node in store.nodes;
      assert Lists(ids, listed) && Distinct(ids) && forall j | 0 <= j < |ids| :: ids[j] in listed;
      ghost var db := store.View();
      PassCollects(db, ids, net);
      hide *;
      CollectFrom(listed, ids, net);
    }

    /** The loop of a pass, with its cache of clients. */
    method CollectFrom(listed: map<Id, Row>, ids: seq<Id>, net: Net)
      requires listed == Active(store.View()) && Distinct(ids) && forall j | 0 <= j < |ids| :: ids[j] in listed
      requires forall id | id in listed :: listed[id].node in store.nodes
      modifies this`trail, store`subs, store`samples
      ensures var net' := Cached(net, listed, ids);
        && store.View() == Updated(old(store.View()), listed, Ids(ids), net')
        && trail == old(trail) + AllNotices(listed, ids, net')
        && store.samples == old(store.samples) + AllSamples(listed, ids, net')
    {
      var clients: map<Id, Client> := map[];
      ghost var was := Was(store.View(), trail, store.samples);
      NothingYet(was.db, listed, ids, Cached(net, listed, ids));
      for i := 0 to |ids|
        invariant Midway(was, clients, listed, ids, i, net)
      {
        clients := CollectOne(was, clients, listed, ids, i, net);
      }
      assert ids[..|ids|] == ids;
      hide Updated, AllNotices, AllSamples, Cached, Caches;
    }

    /** The first i of the listed subscriptions have been visited since `was`. */
    ghost predicate Midway(was: Was, clients: map<Id, Client>, listed: map<Id, Row>, ids: seq<Id>, i: nat, net: Net)
      requires i <= |ids| && forall j | 0 <= j < |ids| :: ids[j] in listed
      reads this, store
    {
      var net' := Cached(net, listed, ids);
      && Caches(clients, listed, ids, i, net)
      && (forall id | id in listed :: listed[id].node in store.nodes)
      && store.View() == Updated(was.db, listed, Ids(ids[..i]), net')
      && trail == was.trail + AllNotices(listed, ids[..i], net')
      && store.samples == was.samples + AllSamples(listed, ids[..i], net')
    }

    /** One iteration. */
    method CollectOne(ghost was: Was, clients: map<Id, Client>, listed: map<Id, Row>, ids: seq<Id>, i: nat, net: Net)
      returns (clients': map<Id, Client>)
      requires Distinct(ids) && i < |ids| && forall j | 0 <= j < |ids| :: ids[j] in listed
      requires listed == Active(was.db) && Midway(was, clients, listed, ids, i, net)
      modifies this`trail, store`subs, store`samples
      ensures Midway(was, clients', listed, ids, i + 1, net)
    {
      hide Caches, Cached, Visited, NoticesOf, SamplesOf, Updated, AllNotices, AllSamples, Active, Distinct, Ids;
      ghost var net' := Cached(net, listed, ids);
      OneMore(was.db, listed, ids, i, net');
      assert ids[i] in store.View().subs && listed[ids[i]].node in store.nodes;
      clients' := VisitOne(clients, listed, ids, i, net);
    }

    /** The client comes from the cache, or its node's row is read. */
    method VisitOne(clients: map<Id, Client>, listed: map<Id, Row>, ids: seq<Id>, i: nat, net: Net)
      returns (clients': map<Id, Client>)
      requires Distinct(ids) && i < |ids| && forall j | 0 <= j < |ids| :: ids[j] in listed
      requires ids[i] in store.View().subs && listed[ids[i]].node in store.nodes
      requires Caches(clients, listed, ids, i, net)
      modifies this`trail, store`subs, store`samples
      ensures Caches(clients', listed, ids, i + 1, net)
      ensures var net', sid := Cached(net, listed, ids), ids[i];
        && store.View() == Visited(old(store.View()), sid, listed[sid], net')
        && trail == old(trail) + NoticesOf(sid, listed[sid], net')
        && store.samples == old(store.samples) + SamplesOf(sid, listed[sid], net')
    {
      var sid := ids[i];
      var snap := listed[sid];
      clients' := clients;
      CachesReach(clients, listed, ids, i, net);
      PolledAlike(store.View(), sid, snap, net, listed, ids);
      assert snap.node in clients ==> clients[snap.node] == Client(snap.node);
      hide Caches, Cached, Visited, NoticesOf, SamplesOf;
      if snap.node !in clients {
        var known := store.GetNode(snap.node, net.readable(sid));
        if !known { return; }
        clients' := clients[snap.node := Client(snap.node)];
      }
      Poll(clients'[snap.node], sid, snap, net);
    }
  }

  /** The rows, the trail and the samples at some moment. */
  datatype Was = Was(db: DB, trail: seq<Mark>, samples: seq<Sample>)

  /** The clients of just those nodes whose rows have been read at one of the first i turns. */
  ghost predicate Caches(clients: map<Id, Client>, listed: map<Id, Row>, order: seq<Id>, i: nat, net: Net)
    requires i <= |order| && forall j | 0 <= j < |order| :: order[j] in listed
  {
    && (forall n | n in clients :: clients[n] == Client(n))
    && (forall n :: n in clients <==> exists j | 0 <= j < i :: listed[order[j]].node == n && net.readable(order[j]))
  }

  /** So the cache, and at its own turn the read, decide whether a subscription is polled. */
  lemma CachesReach(clients: map<Id, Client>, listed: map<Id, Row>, order: seq<Id>, i: nat, net: Net)
    requires Distinct(order) && i < |order| && forall j | 0 <= j < |order| :: order[j] in listed
    requires Caches(clients, listed, order, i, net)
    ensures var sid, n := order[i], listed[order[i]].node;
      && (Cached(net, listed, order).readable(sid) <==> n in clients || net.readable(sid))
      && (n in clients || !net.readable(sid) ==> Caches(clients, listed, order, i + 1, net))
      && (net.readable(sid) ==> Caches(clients[n := Client(n)], listed, order, i + 1, net))
  {
    CachesDecide(clients, listed, order, i, net);
    hide Cached;
  }

  lemma CachesDecide(clients: map<Id, Client>, listed: map<Id, Row>, order: seq<Id>, i: nat, net: Net)
    requires Distinct(order) && i < |order| && forall j | 0 <= j < |order| :: order[j] in listed
    requires Caches(clients, listed, order, i, net)
    ensures var sid := order[i];
      Cached(net, listed, order).readable(sid) <==> listed[sid].node in clients || net.readable(sid)
  {
    var sid := order[i];
    if Reached(listed, order, net, sid) {
      var j, k :| 0 <= j <= k < |order| && order[k] == sid && listed[order[j]].node == listed[sid].node
                && net.readable(order[j]);
      assert k == i;
    }
    if net.readable(sid) { assert Reached(listed, order, net, sid); }
    if listed[sid].node in clients {
      var j :| 0 <= j < i && listed[order[j]].node == listed[sid].node && net.readable(order[j]);
      assert Reached(listed, order, net, sid);
    }
  }

  /** A subscription that is reached is polled as if its own read had succeeded; any other is left alone. */
  lemma PolledAlike(db: DB, sid: Id, snap: Row, net: Net, listed: map<Id, Row>, order: seq<Id>)
    ensures var net', polled := Cached(net, listed, order), net.(readable := (_: Id) => true);
      if net'.readable(sid) then
        && Visited(db, sid, snap, net') == Visited(db, sid, snap, polled)
        && NoticesOf(sid, snap, net') == NoticesOf(sid, snap, polled)
        && SamplesOf(sid, snap, net') == SamplesOf(sid, snap, polled)
      else Visited(db, sid, snap, net') == db && NoticesOf(sid, snap, net') == [] && SamplesOf(sid, snap, net') == []
  {
    hide Reached, Folded, Notices;
  }

  lemma NothingYet(db: DB, listed: map<Id, Row>, order: seq<Id>, net: Net)
    requires forall i | 0 <= i < |order| :: order[i] in listed
    ensures Updated(db, listed, Ids(order[..0]), net) == db
    ensures AllNotices(listed, order[..0], net) == [] && AllSamples(listed, order[..0], net) == []
  {
    assert Updated(db, listed, Ids(order[..0]), net).subs == db.subs;
  }

  /** What one more row of the listing contributes. */
  lemma OneMore(db: DB, listed: map<Id, Row>, order: seq<Id>, i: nat, net: Net)
    requires i < |order| && Distinct(order) && listed == Active(db) && forall j | 0 <= j < |order| :: order[j] in listed
    ensures var sid := order[i];
      var snap, before := listed[sid], Updated(db, listed, Ids(order[..i]), net);
      && sid in before.subs
      && Updated(db, listed, Ids(order[..i + 1]), net) == Visited(before, sid, snap, net)
      && AllNotices(listed, order[..i + 1], net) == AllNotices(listed, order[..i], net) + NoticesOf(sid, snap, net)
      && AllSamples(listed, order[..i + 1], net) == AllSamples(listed, order[..i], net) + SamplesOf(sid, snap, net)
  {
    hide Folded, Notices;
    var sid := order[i];
    var before, after := Updated(db, listed, Ids(order[..i]), net), Updated(db, listed, Ids(order[..i + 1]), net);
    assert order[..i + 1] == order[..i] + [sid] && order[..i + 1][..i] == order[..i];
    assert Ids(order[..i + 1]) == Ids(order[..i]) + {sid} && sid !in Ids(order[..i]);
    assert after.subs == Visited(before, sid, listed[sid], net).subs;
  }

  /** The rows after one poll. */
  function Visited(db: DB, sid: Id, snap: Row, net: Net): DB {
    if net.Answers(sid, snap) && sid in db.subs
    then db.Insert(sid, Folded(db.subs[sid], snap, net.answers[snap.At()], net.writes(sid))) else db
  }

  /** The sample of one poll, if its insertion succeeds. */
  function SamplesOf(sid: Id, snap: Row, net: Net): seq<Sample> {
    if net.Answers(sid, snap) && net.writes(sid).sample
    then
      var u := net.answers[snap.At()];
      [Sample(snap.tenant, snap.node, u.period, net.clock(sid), u.used)]
    else []
  }

  /** The notices of a pass in the order of the listing. */
  function AllNotices(listed: map<Id, Row>, order: seq<Id>, net: Net): seq<Mark>
    requires forall i | 0 <= i < |order| :: order[i] in listed
  {
    if order == [] then []
    else
      var sid := order[|order| - 1];
      AllNotices(listed, order[..|order| - 1], net) + NoticesOf(sid, listed[sid], net)
  }

  function AllSamples(listed: map<Id, Row>, order: seq<Id>, net: Net): seq<Sample>
    requires forall i | 0 <= i < |order| :: order[i] in listed
  {
    if order == [] then []
    else
      var sid := order[|order| - 1];
      AllSamples(listed, order[..|order| - 1], net) + SamplesOf(sid, listed[sid], net)
  }
}
