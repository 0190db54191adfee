/**
 * The webhook dispatcher as a state machine: any number of emitters put rendered events into a
 * bounded queue without waiting, and one worker takes them out and sends each to the endpoints
 * that asked for it. Emitters, the worker and endpoint registration interleave step by step.
 */
module Courier {
  import opened Domain
  import opened EventFilter

  const QUEUE_DEPTH := 512
  const MAX_ATTEMPTS := 3

  /** The body is rendered when the event is emitted. */
  datatype Job = Job(event: string, body: string)

  // ---------- bounded retry ----------

  /** One attempt's status, and whether the delivery budget runs out in the pause after it. */
  datatype Try = Try(status: string, expired: bool)

  type Tries = t: seq<Try> | |t| == MAX_ATTEMPTS witness seq(MAX_ATTEMPTS, _ => Try("failed", true))

  predicate Delivered(t: Try) { t.status == "delivered" }

  /** The number of attempts made when those before the k-th have failed. */
  function Attempts(tries: Tries, k: nat): (n: nat)
    requires 1 <= k <= MAX_ATTEMPTS
    ensures k <= n <= MAX_ATTEMPTS
    decreases MAX_ATTEMPTS - k
  {
    if Delivered(tries[k - 1]) || k >= MAX_ATTEMPTS || tries[k - 1].expired then k else Attempts(tries, k + 1)
  }

  /** Only the last attempt may deliver, and only an expired budget makes a failing delivery give up early. */
  predicate Faithful(tries: Tries, status: string, attempts: nat) {
    && 1 <= attempts <= 3
    && status == tries[attempts - 1].status
    && (forall k | 0 <= k < attempts - 1 :: !Delivered(tries[k]) && !tries[k].expired)
    && (status != "delivered" && attempts < 3 ==> tries[attempts - 1].expired)
    && (status == "delivered" <==> exists k | 0 <= k < attempts :: Delivered(tries[k]))
  }

  lemma {:induction false} AttemptsAreFaithful(tries: Tries, k: nat)
    requires 1 <= k <= MAX_ATTEMPTS
    requires forall i | 0 <= i < k - 1 :: !Delivered(tries[i]) && !tries[i].expired
    ensures var n := Attempts(tries, k);
      Faithful(tries, tries[n - 1].status, n)
    decreases MAX_ATTEMPTS - k
  {
    if !Delivered(tries[k - 1]) && k < MAX_ATTEMPTS && !tries[k - 1].expired { AttemptsAreFaithful(tries, k + 1); }
  }

  /** The retry loop; `tries` says what each attempt would meet. */
  method DeliverWithRetry(tries: Tries) returns (status: string, attempts: nat)
    ensures attempts == Attempts(tries, 1) && status == tries[attempts - 1].status
    ensures Faithful(tries, status, attempts)
  {
    attempts := 1;
    while true
      invariant 1 <= attempts <= MAX_ATTEMPTS
      invariant forall k | 0 <= k < attempts - 1 :: !Delivered(tries[k]) && !tries[k].expired
      invariant Attempts(tries, attempts) == Attempts(tries, 1)
      decreases MAX_ATTEMPTS - attempts
    {
      status := tries[attempts - 1].status;
      if status == "delivered" || attempts >= MAX_ATTEMPTS { return; }
      if tries[attempts - 1].expired { return; }
      attempts := attempts + 1;
    }
  }

  // ---------- the state ----------

  datatype Endpoint = Endpoint(id: Id, events: string)

  /** `done` endpoints of the listing have been served. */
  datatype Worker = Idle | Taken(job: Job) | Sending(job: Job, listing: seq<Endpoint>, done: nat)

  /** A row for webhook_deliveries, and whether the database took it. */
  datatype Delivery = Delivery(endpoint: Id, job: Job, status: string, attempts: nat, tries: Tries, stored: bool)

  datatype Offer = Offer(job: Job, accepted: bool)

  /** One event's turn; its endpoints may have been impossible to list. */
  datatype Round = Round(job: Job, listed: bool)

  /** `since` is how many rounds had read the endpoints when one was registered. */
  datatype State = State(
    queue: seq<Job>, worker: Worker, endpoints: map<Id, string>, next: Id,
    offers: seq<Offer>, finished: seq<Round>, sent: seq<Delivery>, since: map<Id, nat>)

  const EMPTY := State([], Idle, map[], 1, [], [], [], map[])

  datatype Event =
    | Emit(job: Job)
    | Take
    | List(ok: bool, order: seq<Id>)
    | Send(tries: Tries, stored: bool)
    | Finish
    | Register(events: string)

  function Read(order: seq<Id>, endpoints: map<Id, string>): (r: seq<Endpoint>)
    requires forall i | 0 <= i < |order| :: order[i] in endpoints
    ensures |r| == |order|
  {
    seq(|order|, i requires 0 <= i < |order| => Endpoint(order[i], endpoints[order[i]]))
  }

  /** The rounds that have read the endpoints, or failed to. */
  function Begun(c: State): seq<Round> {
    if c.worker.Sending? then c.finished + [Round(c.worker.job, true)] else c.finished
  }

  function Outgoing(to: Endpoint, job: Job, tries: Tries, stored: bool): Delivery {
    var n := Attempts(tries, 1);
    Delivery(to.id, job, tries[n - 1].status, n, tries, stored)
  }

  ghost function Next(c: State, e: Event): State {
    match e
    case Emit(job) =>
      if |c.queue| < QUEUE_DEPTH then c.(queue := c.queue + [job], offers := c.offers + [Offer(job, true)])
      else c.(offers := c.offers + [Offer(job, false)])
    case Take =>
      if c.worker.Idle? && c.queue != [] then c.(queue := c.queue[1..], worker := Taken(c.queue[0])) else c
    case List(ok, order) =>
      if !c.worker.Taken? then c
      else if !ok then c.(worker := Idle, finished := c.finished + [Round(c.worker.job, false)])
      else if Lists(order, c.endpoints) then c.(worker := Sending(c.worker.job, Read(order, c.endpoints), 0))
      else c
    case Send(tries, stored) =>
      if !c.worker.Sending? || c.worker.done >= |c.worker.listing| then c
      else
        var to := c.worker.listing[c.worker.done];
        c.(worker := c.worker.(done := c.worker.done + 1),
           sent := if Subscribed(to.events, c.worker.job.event)
                   then c.sent + [Outgoing(to, c.worker.job, tries, stored)] else c.sent)
    case Finish =>
      if c.worker.Sending? && c.worker.done >= |c.worker.listing| then
        c.(worker := Idle, finished := c.finished + [Round(c.worker.job, true)])
      else c
    case Register(events) =>
      c.(endpoints := c.endpoints[c.next := if events == "" then "*" else events], next := c.next + 1,
         since := c.since[c.next := |Begun(c)|])
  }

  ghost function Follow(c: State, es: seq<Event>): State {
    if es == [] then c else Next(Follow(c, es[..|es| - 1]), es[|es| - 1])
  }

  ghost function Run(es: seq<Event>): State { Follow(EMPTY, es) }

  lemma FollowStep(c: State, es: seq<Event>, e: Event)
    ensures Follow(c, es + [e]) == Next(Follow(c, es), e)
  {
    assert (es + [e])[..|es|] == es;
  }

  lemma {:induction false} FollowMore(c: State, es: seq<Event>, more: seq<Event>)
    ensures Follow(c, es + more) == Follow(Follow(c, es), more)
    decreases |more|
  {
    hide Next;
    if more == [] {
      assert es + more == es;
    } else {
      var n := |more| - 1;
      FollowMore(c, es, more[..n]);
      assert es + more == es + more[..n] + [more[n]];
      FollowStep(c, es + more[..n], more[n]);
      assert more == more[..n] + [more[n]];
      FollowStep(Follow(c, es), more[..n], more[n]);
      hide Follow;
    }
  }

  // ---------- nothing accepted is lost, duplicated or reordered ----------

  function Accepted(offers: seq<Offer>): seq<Job> {
    if offers == [] then []
    else
      var last := offers[|offers| - 1];
      Accepted(offers[..|offers| - 1]) + if last.accepted then [last.job] else []
  }

  function Jobs(rounds: seq<Round>): seq<Job> {
    seq(|rounds|, i requires 0 <= i < |rounds| => rounds[i].job)
  }

  lemma JobsOfLonger(rounds: seq<Round>, r: Round)
    ensures Jobs(rounds + [r]) == Jobs(rounds) + [r.job]
  {}

  function InHand(worker: Worker): seq<Job> { if worker.Idle? then [] else [worker.job] }

  /** The jobs that a run's emitters offer, read off the run itself. */
  function Emitted(es: seq<Event>): seq<Job> {
    if es == [] then []
    else Emitted(es[..|es| - 1]) + if es[|es| - 1].Emit? then [es[|es| - 1].job] else []
  }

  function Offered(offers: seq<Offer>): seq<Job> {
    seq(|offers|, i requires 0 <= i < |offers| => offers[i].job)
  }

  lemma AcceptedOfLonger(offers: seq<Offer>, o: Offer)
    ensures Accepted(offers + [o]) == Accepted(offers) + if o.accepted then [o.job] else []
  {
    assert (offers + [o])[..|offers|] == offers;
  }

  ghost predicate Conserved(c: State) {
    |c.queue| <= QUEUE_DEPTH && Accepted(c.offers) == Jobs(c.finished) + InHand(c.worker) + c.queue
  }

  lemma NextConserves(c: State, e: Event)
    requires Conserved(c)
    ensures Conserved(Next(c, e))
  {
    hide Lists, Subscribed, Outgoing, Read, Begun;
    match e
    case Emit(job) => AcceptedOfLonger(c.offers, Offer(job, |c.queue| < QUEUE_DEPTH));
    case Take => if c.worker.Idle? && c.queue != [] { assert c.queue == [c.queue[0]] + c.queue[1..]; }
    case List(ok, order) =>
      if c.worker.Taken? { JobsOfLonger(c.finished, Round(c.worker.job, false)); }
    case Send(tries, stored) =>
    case Finish => if c.worker.Sending? { JobsOfLonger(c.finished, Round(c.worker.job, true)); }
    case Register(events) =>
  }

  lemma OffersGrow(c: State, e: Event)
    ensures Offered(Next(c, e).offers) == Offered(c.offers) + if e.Emit? then [e.job] else []
  {
    hide Subscribed, Lists;
  }

  /**
   * Whatever the interleaving, accepted events are, in order, those dispatched, the one in hand
   * and those waiting; every emission is offered exactly once; and at most 512 events wait.
   */
  lemma {:induction false} EventsAreConserved(es: seq<Event>)
    ensures var c := Run(es);
      && Accepted(c.offers) == Jobs(c.finished) + InHand(c.worker) + c.queue
      && Offered(c.offers) == Emitted(es)
      && |c.queue| <= 512
  {
    if es == [] {
      assert Conserved(EMPTY);
    } else {
      var c := Run(es[..|es| - 1]);
      EventsAreConserved(es[..|es| - 1]);
      NextConserves(c, es[|es| - 1]);
      OffersGrow(c, es[|es| - 1]);
      hide Next;
    }
  }

  /** An emission is dropped exactly when 512 events are waiting, and then nothing queued is touched. */
  lemma DropsOnlyWhenFull(es: seq<Event>, job: Job)
    ensures var c, c' := Run(es), Run(es + [Emit(job)]);
      && (c'.offers == c.offers + [Offer(job, false)] <==> |c.queue| == 512)
      && c'.queue == c.queue + if |c.queue| == 512 then [] else [job]
  {
    EventsAreConserved(es);
    FollowStep(EMPTY, es, Emit(job));
    var c := Run(es);
    assert c.offers + [Offer(job, |c.queue| < QUEUE_DEPTH)] == Run(es + [Emit(job)]).offers;
    assert (c.offers + [Offer(job, true)])[|c.offers|] != (c.offers + [Offer(job, false)])[|c.offers|];
  }

  // ---------- each endpoint's deliveries are a filter of the events ----------

  /** The events that an endpoint asked for among rounds whose endpoints were listed. */
  function Wanted(rounds: seq<Round>, events: string): seq<Job> {
    if rounds == [] then []
    else
      var last := rounds[|rounds| - 1];
      Wanted(rounds[..|rounds| - 1], events)
      + if last.listed && Subscribed(events, last.job.event) then [last.job] else []
  }

  function SentTo(sent: seq<Delivery>, id: Id): seq<Job> {
    if sent == [] then []
    else
      var last := sent[|sent| - 1];
      SentTo(sent[..|sent| - 1], id) + if last.endpoint == id then [last.job] else []
  }

  /** The endpoint's turn in the current round is still to come. */
  ghost predicate Awaits(c: State, id: Id) {
    c.worker.Sending? && exists i | c.worker.done <= i < |c.worker.listing| :: c.worker.listing[i].id == id
  }

  function Due(c: State, id: Id): seq<Round>
    requires id in c.since && c.since[id] <= |Begun(c)|
  {
    Begun(c)[c.since[id]..]
  }

  ghost predicate Registered(c: State) {
    && c.since.Keys == c.endpoints.Keys
    && (forall id | id in c.endpoints :: id < c.next && c.since[id] <= |Begun(c)|)
  }

  /** The listing names each endpoint registered before it once, with its events. */
  ghost predicate Snapshot(c: State)
    requires Registered(c)
  {
    c.worker.Sending? ==>
      && c.worker.done <= |c.worker.listing|
      && (forall i | 0 <= i < |c.worker.listing| ::
            var e := c.worker.listing[i];
            e.id in c.endpoints && c.endpoints[e.id] == e.events && c.since[e.id] <= |c.finished|)
      && (forall i, j | 0 <= i < j < |c.worker.listing| :: c.worker.listing[i].id != c.worker.listing[j].id)
      && (forall id | id in c.endpoints && c.since[id] <= |c.finished| ::
            exists i | 0 <= i < |c.worker.listing| :: c.worker.listing[i].id == id)
  }

  /** The event in hand, if the endpoint asked for it and its turn is still to come. */
  ghost function Outstanding(c: State, id: Id): seq<Job>
    requires id in c.endpoints
  {
    if Awaits(c, id) && Subscribed(c.endpoints[id], c.worker.job.event) then [c.worker.job] else []
  }

  ghost predicate Exact(c: State, id: Id)
    requires Registered(c) && id in c.endpoints
  {
    Wanted(Due(c, id), c.endpoints[id]) == SentTo(c.sent, id) + Outstanding(c, id)
  }

  ghost predicate Recorded(c: State) {
    forall d | d in c.sent :: d.endpoint < c.next && Faithful(d.tries, d.status, d.attempts)
  }

  ghost predicate Filtered(c: State) {
    Registered(c) && Snapshot(c) && Recorded(c) && forall id | id in c.endpoints :: Exact(c, id)
  }

  lemma WantedOfLonger(rounds: seq<Round>, r: Round, events: string)
    ensures Wanted(rounds + [r], events)
            == Wanted(rounds, events) + if r.listed && Subscribed(events, r.job.event) then [r.job] else []
  {
    assert (rounds + [r])[..|rounds|] == rounds;
  }

  lemma SentToOfLonger(sent: seq<Delivery>, d: Delivery, id: Id)
    ensures SentTo(sent + [d], id) == SentTo(sent, id) + if d.endpoint == id then [d.job] else []
  {
    assert (sent + [d])[..|sent|] == sent;
  }

  lemma {:induction false} NothingSentTo(sent: seq<Delivery>, id: Id)
    requires forall d | d in sent :: d.endpoint != id
    ensures SentTo(sent, id) == []
  {
    if sent != [] { NothingSentTo(sent[..|sent| - 1], id); }
  }

  lemma StaysRegistered(c: State, e: Event)
    requires Registered(c)
    ensures Registered(Next(c, e))
  {
    hide Subscribed, Lists;
  }

  lemma StaysSnapshot(c: State, e: Event)
    requires Registered(c) && Snapshot(c)
    ensures Registered(Next(c, e)) && Snapshot(Next(c, e))
  {
    hide Subscribed;
    StaysRegistered(c, e);
    var c' := Next(c, e);
    if e.List? {
      ListTakesSnapshot(c, e.ok, e.order);
    } else {
      hide Lists, Read, Accepted, Outgoing;
    }
  }

  lemma ListTakesSnapshot(c: State, ok: bool, order: seq<Id>)
    requires Registered(c) && Snapshot(c) && Registered(Next(c, List(ok, order)))
    ensures Snapshot(Next(c, List(ok, order)))
  {
    var e, c' := List(ok, order), Next(c, List(ok, order));
    if c'.worker.Sending? && !c.worker.Sending? {
      forall id | id in c.endpoints ensures exists i | 0 <= i < |c'.worker.listing| :: c'.worker.listing[i].id == id {
        var i :| 0 <= i < |e.order| && e.order[i] == id;
        assert c'.worker.listing[i].id == id;
      }
    }
  }

  lemma StaysRecorded(c: State, e: Event)
    requires Recorded(c) && Registered(c) && Snapshot(c)
    ensures Recorded(Next(c, e))
  {
    hide Subscribed, Lists;
    if e.Send? { AttemptsAreFaithful(e.tries, 1); }
    hide Faithful;
  }

  lemma ListIsExact(c: State, ok: bool, order: seq<Id>, id: Id)
    requires Registered(c) && Snapshot(c) && id in c.endpoints && Exact(c, id)
    requires Registered(Next(c, List(ok, order))) && Snapshot(Next(c, List(ok, order)))
    ensures Exact(Next(c, List(ok, order)), id)
  {
    hide Subscribed, Lists, Read;
    var c' := Next(c, List(ok, order));
    if c.worker.Taken? && c' != c {
      var r := Round(c.worker.job, ok);
      assert Due(c', id) == Due(c, id) + [r];
      WantedOfLonger(Due(c, id), r, c.endpoints[id]);
      hide Wanted, SentTo;
    }
  }

  lemma SendIsExact(c: State, tries: Tries, stored: bool, id: Id)
    requires Registered(c) && Snapshot(c) && id in c.endpoints && Exact(c, id)
    requires Registered(Next(c, Send(tries, stored)))
    ensures Exact(Next(c, Send(tries, stored)), id)
  {
    if c.worker.Sending? && c.worker.done < |c.worker.listing| {
      hide Next, Subscribed, Attempts, Faithful, Wanted, SentTo, Outgoing, Awaits, Snapshot, Registered;
      var to := c.worker.listing[c.worker.done];
      SentToOfLonger(c.sent, Outgoing(to, c.worker.job, tries, stored), id);
      OutgoingTo(to, c.worker.job, tries, stored);
      AwaitsAfterSend(c, tries, stored, id);
      assert to.id == id ==> to.events == c.endpoints[id] by { ListedEvents(c); }
      SameDue(c, Next(c, Send(tries, stored)), id);
      hide Due, Begun;
    }
  }

  lemma OutgoingTo(to: Endpoint, job: Job, tries: Tries, stored: bool)
    ensures Outgoing(to, job, tries, stored).endpoint == to.id && Outgoing(to, job, tries, stored).job == job
  {}

  lemma ListedEvents(c: State)
    requires Registered(c) && Snapshot(c) && c.worker.Sending? && c.worker.done < |c.worker.listing|
    ensures var to := c.worker.listing[c.worker.done]; to.id in c.endpoints && to.events == c.endpoints[to.id]
  {}

  lemma SameDue(c: State, c': State, id: Id)
    requires Registered(c) && Registered(c') && id in c.endpoints && c.worker.Sending?
    requires c'.since == c.since && c'.finished == c.finished && c'.worker == c.worker.(done := c.worker.done + 1)
    requires c'.endpoints == c.endpoints
    ensures Due(c', id) == Due(c, id)
  {}

  lemma AwaitsAfterSend(c: State, tries: Tries, stored: bool, id: Id)
    requires Registered(c) && Snapshot(c) && c.worker.Sending? && c.worker.done < |c.worker.listing|
    ensures var c', to := Next(c, Send(tries, stored)), c.worker.listing[c.worker.done];
      && c'.endpoints == c.endpoints && c'.since == c.since && c'.finished == c.finished
      && c'.worker == c.worker.(done := c.worker.done + 1)
      && c'.sent == (if Subscribed(to.events, c.worker.job.event)
                     then c.sent + [Outgoing(to, c.worker.job, tries, stored)] else c.sent)
      && (if to.id == id then Awaits(c, id) && !Awaits(c', id) else Awaits(c, id) == Awaits(c', id))
  {
    hide Subscribed, Outgoing;
  }

  lemma RegisterIsExact(c: State, events: string, id: Id)
    requires Registered(c) && Snapshot(c) && Recorded(c) && (id in c.endpoints ==> Exact(c, id))
    requires var c' := Next(c, Register(events)); Registered(c') && id in c'.endpoints
    ensures Exact(Next(c, Register(events)), id)
  {
    var c' := Next(c, Register(events));
    if id == c.next {
      NothingSentTo(c.sent, id);
      assert Due(c', id) == [];
    } else {
      assert Due(c', id) == Due(c, id);
    }
    hide Subscribed, Wanted, SentTo;
  }

  lemma QuietIsExact(c: State, e: Event, id: Id)
    requires Registered(c) && id in c.endpoints && Exact(c, id) && (e.Emit? || e.Take? || e.Finish?)
    requires Registered(Next(c, e))
    ensures Exact(Next(c, e), id)
  {
    hide Subscribed, Wanted, SentTo;
    assert Due(Next(c, e), id) == Due(c, id);
  }

  lemma NextIsExact(c: State, e: Event, id: Id)
    requires Filtered(c) && Registered(Next(c, e)) && Snapshot(Next(c, e)) && id in Next(c, e).endpoints
    ensures Exact(Next(c, e), id)
  {
    hide Registered, Snapshot, Recorded, Exact;
    match e
    case Emit(_) => QuietIsExact(c, e, id);
    case Take => QuietIsExact(c, e, id);
    case List(ok, order) => ListIsExact(c, ok, order, id);
    case Send(tries, stored) => SendIsExact(c, tries, stored, id);
    case Finish => QuietIsExact(c, e, id);
    case Register(events) => RegisterIsExact(c, events, id);
  }

  lemma {:induction false} RunIsFiltered(es: seq<Event>)
    ensures Filtered(Run(es))
  {
    if es != [] {
      var c, e := Run(es[..|es| - 1]), es[|es| - 1];
      RunIsFiltered(es[..|es| - 1]);
      hide Next, Registered, Snapshot, Recorded, Exact;
      StaysSnapshot(c, e);
      StaysRecorded(c, e);
      forall id | id in Next(c, e).endpoints ensures Exact(Next(c, e), id) { NextIsExact(c, e, id); }
    }
  }

  // ---------- what each endpoint asked for, read off the run ----------

  /** How many registrations there are. */
  function Registrations(es: seq<Event>): nat {
    if es == [] then 0 else Registrations(es[..|es| - 1]) + if es[|es| - 1].Register? then 1 else 0
  }

  /** The id that the registration at this place gave. */
  function Given(es: seq<Event>, p: nat): Id
    requires p < |es|
  {
    1 + Registrations(es[..p])
  }

  lemma {:induction false} IdsCountUp(es: seq<Event>)
    ensures Run(es).next == 1 + Registrations(es)
  {
    if es != [] {
      IdsCountUp(es[..|es| - 1]);
      hide Subscribed, Lists;
    }
  }

  /** A registration that is behind stays as it was made. */
  lemma {:induction false} RegistrationStays(es: seq<Event>, p: nat)
    requires p < |es| && es[p].Register?
    ensures var c, id := Run(es), Given(es, p);
      && id in c.endpoints && c.endpoints[id] == (if es[p].events == "" then "*" else es[p].events)
      && id in c.since && c.since[id] == |Begun(Run(es[..p]))|
    decreases |es|
  {
    var init, e := es[..|es| - 1], es[|es| - 1];
    IdsCountUp(es[..p]);
    hide Next;
    if p < |init| {
      assert init[..p] == es[..p];
      RegistrationStays(init, p);
      RunIsFiltered(init);
      hide Run, Registrations;
      EndpointStays(Run(init), e, Given(es, p));
    } else {
      assert init == es[..p];
      EndpointStarts(Run(init), e.events);
    }
  }

  lemma EndpointStays(c: State, e: Event, id: Id)
    requires Registered(c) && id in c.endpoints
    ensures var c' := Next(c, e);
      id in c'.endpoints && c'.endpoints[id] == c.endpoints[id] && id in c'.since && c'.since[id] == c.since[id]
  {
    hide Subscribed, Lists;
  }

  lemma EndpointStarts(c: State, events: string)
    ensures var c' := Next(c, Register(events));
      && c.next in c'.endpoints && c'.endpoints[c.next] == (if events == "" then "*" else events)
      && c.next in c'.since && c'.since[c.next] == |Begun(c)|
  {}

  lemma {:induction false} EveryEndpointRegistered(es: seq<Event>, id: Id)
    requires id in Run(es).endpoints
    ensures exists p :: 0 <= p < |es| && es[p].Register? && Given(es, p) == id
    decreases |es|
  {
    if es != [] {
      var init := es[..|es| - 1];
      if id in Run(init).endpoints {
        EveryEndpointRegistered(init, id);
        var p :| 0 <= p < |init| && init[p].Register? && Given(init, p) == id;
        assert init[..p] == es[..p] && es[p].Register? && Given(es, p) == id;
      } else {
        IdsCountUp(init);
        hide Subscribed, Lists;
        assert es[|es| - 1].Register? && Given(es, |es| - 1) == id;
      }
    }
  }

  /** An empty list means what a star means. */
  lemma {:induction false} WantedAlike(rounds: seq<Round>, events: string)
    ensures Wanted(rounds, if events == "" then "*" else events) == Wanted(rounds, events)
  {
    if rounds != [] {
      WantedAlike(rounds[..|rounds| - 1], events);
      StarIsEverything(rounds[|rounds| - 1].job.event);
      hide Subscribed;
    }
  }

  /**
   * In every state, for every endpoint that a registration in the run has given rise to: what was
   * delivered to it and the event that is still on its way to it are, once each and in order, what
   * that registration asked for among the events dispatched since; between rounds nothing is on its
   * way; and every record tells its attempts faithfully.
   */
  lemma DeliveriesAreAFilter(es: seq<Event>, p: nat)
    requires p < |es| && es[p].Register?
    ensures var c, id, before := Run(es), Given(es, p), |Begun(Run(es[..p]))|;
      && id in c.endpoints && before <= |Begun(c)|
      && SentTo(c.sent, id) + Outstanding(c, id) == Wanted(Begun(c)[before..], es[p].events)
      && (!c.worker.Sending? ==> Outstanding(c, id) == [] && Begun(c) == c.finished)
      && (forall d | d in c.sent :: Faithful(d.tries, d.status, d.attempts))
  {
    var c, id := Run(es), Given(es, p);
    RunIsFiltered(es);
    RegistrationStays(es, p);
    assert Exact(c, id);
    WantedAlike(Due(c, id), es[p].events);
    hide Wanted, SentTo, Run;
  }
}
