/** The dispatcher as it is written: a bounded queue, a worker's loop over endpoints, and a log table. */
module Dispatcher {
  import opened Domain
  import opened EventFilter
  import opened Courier

  /** A row of webhook_deliveries. */
  datatype LogRow = LogRow(endpoint: Id, event: string, payload: string, status: string, attempts: nat)

  /** The rows that the database took, in order. */
  function Table(sent: seq<Delivery>): seq<LogRow> {
    if sent == [] then []
    else
      var d := sent[|sent| - 1];
      Table(sent[..|sent| - 1])
      + if d.stored then [LogRow(d.endpoint, d.job.event, d.job.body, d.status, d.attempts)] else []
  }

  /** What one endpoint's delivery will meet: the attempts, and the fate of its log row. */
  datatype Weather = Weather(tries: Tries, stored: bool)

  function Sends(weather: seq<Weather>): seq<Event> {
    seq(|weather|, i requires 0 <= i < |weather| => Send(weather[i].tries, weather[i].stored))
  }

  /** The worker's events for one job. */
  function Turn(ok: bool, order: seq<Id>, weather: seq<Weather>): seq<Event> {
    if ok then [List(true, order)] + Sends(weather) + [Finish] else [List(false, order)]
  }

  /** The deliveries of one job: one for each listed endpoint that asked for it, in listing order. */
  function Outgoings(listing: seq<Endpoint>, job: Job, weather: seq<Weather>): seq<Delivery>
    requires |listing| == |weather|
  {
    if listing == [] then []
    else
      var i := |listing| - 1;
      Outgoings(listing[..i], job, weather[..i])
      + if Subscribed(listing[i].events, job.event)
        then [Outgoing(listing[i], job, weather[i].tries, weather[i].stored)] else []
  }

  /** What one event's turn will meet. */
  datatype Forecast = Forecast(ok: bool, order: seq<Id>, weather: seq<Weather>)
  {
    ghost predicate Fits(hooks: map<Id, string>) { ok ==> Lists(order, hooks) && |weather| == |order| }
  }

  /** The worker's events while it drains the queue. */
  function Shift(forecasts: seq<Forecast>): seq<Event> {
    if forecasts == [] then []
    else
      var last := forecasts[|forecasts| - 1];
      Shift(forecasts[..|forecasts| - 1]) + [Take] + Turn(last.ok, last.order, last.weather)
  }

  lemma ShiftStep(forecasts: seq<Forecast>, i: nat)
    requires i < |forecasts|
    ensures Shift(forecasts[..i + 1])
            == Shift(forecasts[..i]) + [Take] + Turn(forecasts[i].ok, forecasts[i].order, forecasts[i].weather)
  {
    assert forecasts[..i + 1][..i] == forecasts[..i];
    hide Turn;
  }

  lemma OutgoingsStep(listing: seq<Endpoint>, job: Job, weather: seq<Weather>, i: nat)
    requires i < |listing| == |weather|
    ensures Outgoings(listing[..i + 1], job, weather[..i + 1]) == Outgoings(listing[..i], job, weather[..i])
            + if Subscribed(listing[i].events, job.event)
              then [Outgoing(listing[i], job, weather[i].tries, weather[i].stored)] else []
  {
    assert weather[..i + 1][..i] == weather[..i] && listing[..i + 1][..i] == listing[..i];
    hide Subscribed, Outgoing;
  }

  lemma SendsStep(weather: seq<Weather>, i: nat)
    requires i < |weather|
    ensures Sends(weather[..i + 1]) == Sends(weather[..i]) + [Send(weather[i].tries, weather[i].stored)]
  {}

  class Dispatcher {
    var queue: seq<Job>
    var hooks: map<Id, string>        // webhook_endpoints: the event list by id
    var next: Id
    var deliveries: seq<LogRow>       // webhook_deliveries
    ghost var worker: Worker
    ghost var offers: seq<Offer>
    ghost var finished: seq<Round>
    ghost var sent: seq<Delivery>
    ghost var since: map<Id, nat>

    ghost function View(): State
      reads this
    {
      State(queue, worker, hooks, next, offers, finished, sent, since)
    }

    ghost predicate Valid()
      reads this
    {
      deliveries == Table(sent)
    }

    constructor ()
      ensures Valid() && View() == EMPTY
    {
      queue, hooks, next, deliveries := [], map[], 1, [];
      worker, offers, finished, sent, since := Idle, [], [], [], map[];
    }

    /** Never waits: a full queue drops the event at hand. */
    method Emit(job: Job)
      modifies this`queue, this`offers
      ensures View() == Next(old(View()), Event.Emit(job))
    {
      offers := offers + [Offer(job, |queue| < QUEUE_DEPTH)];
      if |queue| < QUEUE_DEPTH { queue := queue + [job]; }
    }

    /** Nothing is registered if the row cannot be inserted. */
    method CreateWebhook(events: string, up: bool) returns (id: Option<Id>)
      modifies this`hooks, this`next, this`since
      ensures id == if up then Some(old(next)) else None
      ensures View() == if up then Next(old(View()), Register(events)) else old(View())
      ensures up ==> id.value in hooks && forall e :: Subscribed(hooks[id.value], e) <==> Subscribed(events, e)
      ensures forall i | i in old(hooks) && Some(i) != id :: i in hooks && hooks[i] == old(hooks)[i]
    {
      var listed := events;
      if listed == "" { listed := "*"; }
      if !up { return None; }
      id := Some(next);
      forall e ensures Subscribed(listed, e) <==> Subscribed(events, e) { StarIsEverything(e); }
      hide Subscribed;
      since := since[next := |Begun(View())|];
      hooks, next := hooks[next := listed], next + 1;
    }

    /** The worker's receive; it waits while the queue is empty. */
    method Receive() returns (job: Job)
      requires worker.Idle? && queue != []
      modifies this`queue, this`worker
      ensures View() == Next(old(View()), Take) && worker == Taken(job)
    {
      job := queue[0];
      queue := queue[1..];
      worker := Taken(job);
    }

    /** ListActiveWebhooks, with the order in which the database returns the rows. */
    method ListActiveWebhooks(order: seq<Id>) returns (listing: seq<Endpoint>)
      requires Lists(order, hooks)
      ensures listing == Read(order, hooks)
    {
      listing := [];
      for i := 0 to |order|
        invariant listing == Read(order, hooks)[..i]
      {
        listing := listing + [Endpoint(order[i], hooks[order[i]])];
      }
    }

    method RecordWebhookDelivery(to: Endpoint, job: Job, weather: Weather, status: string, attempts: nat)
      requires Valid()
      requires status == weather.tries[Attempts(weather.tries, 1) - 1].status && attempts == Attempts(weather.tries, 1)
      modifies this`deliveries, this`sent
      ensures Valid() && sent == old(sent) + [Outgoing(to, job, weather.tries, weather.stored)]
      ensures deliveries == old(deliveries)
                            + if weather.stored then [LogRow(to.id, job.event, job.body, status, attempts)] else []
    {
      var d := Outgoing(to, job, weather.tries, weather.stored);
      assert (sent + [d])[..|sent|] == sent;
      sent := sent + [d];
      if weather.stored { deliveries := deliveries + [LogRow(to.id, job.event, job.body, status, attempts)]; }
    }

    /** One iteration of the loop over the listed endpoints. */
    method Serve(to: Endpoint, job: Job, weather: Weather)
      requires Valid() && worker.Sending? && worker.done < |worker.listing|
      requires to == worker.listing[worker.done] && job == worker.job
      modifies this`deliveries, this`sent, this`worker
      ensures Valid() && View() == Next(old(View()), Send(weather.tries, weather.stored))
      ensures worker == old(worker).(done := old(worker).done + 1)
      ensures sent == old(sent) + if Subscribed(to.events, job.event)
                                  then [Outgoing(to, job, weather.tries, weather.stored)] else []
      ensures if Subscribed(to.events, job.event) && weather.stored
        then
          && |deliveries| == |old(deliveries)| + 1 && deliveries[..|old(deliveries)|] == old(deliveries)
          && var row := deliveries[|old(deliveries)|];
             && row.endpoint == to.id && row.event == job.event && row.payload == job.body
             && Faithful(weather.tries, row.status, row.attempts)
        else deliveries == old(deliveries)
    {
      hide Subscribed, Table, Faithful;
      var wants := Subscribes(to.events, job.event);
      if wants {
        var status, attempts := DeliverWithRetry(weather.tries);
        RecordWebhookDelivery(to, job, weather, status, attempts);
      }
      worker := worker.(done := worker.done + 1);
    }

    /** Delivers one job to every endpoint that asked for it; a failed listing delivers it to none. */
    method Dispatch(job: Job, ok: bool, order: seq<Id>, weather: seq<Weather>)
      requires Valid() && worker == Taken(job)
      requires ok ==> Lists(order, hooks) && |weather| == |order|
      modifies this`deliveries, this`sent, this`worker, this`finished
      ensures Valid() && View() == Follow(old(View()), Turn(ok, order, weather))
      ensures worker.Idle? && finished == old(finished) + [Round(job, ok)]
      ensures sent == old(sent) + if ok then Outgoings(Read(order, hooks), job, weather) else []
    {
      hide Subscribed, Table, Outgoing, Lists;
      ghost var was := View();
      FollowStep(was, [], List(ok, order));
      assert [] + [List(ok, order)] == [List(ok, order)];
      if !ok {
        worker, finished := Idle, finished + [Round(job, false)];
        return;
      }
      var listing := ListActiveWebhooks(order);
      worker := Sending(job, listing, 0);
      SendAll(job, listing, weather);
      FollowMore(was, [List(ok, order)], Sends(weather) + [Finish]);
      assert [List(true, order)] + (Sends(weather) + [Finish]) == Turn(ok, order, weather);
    }

    /** The loop over the listed endpoints. */
    method SendAll(job: Job, listing: seq<Endpoint>, weather: seq<Weather>)
      requires Valid() && worker == Sending(job, listing, 0) && |weather| == |listing|
      modifies this`deliveries, this`sent, this`worker, this`finished
      ensures Valid() && View() == Follow(old(View()), Sends(weather) + [Finish])
      ensures worker.Idle? && finished == old(finished) + [Round(job, true)]
      ensures sent == old(sent) + Outgoings(listing, job, weather)
    {
      ghost var was := View();
      assert Sends(weather[..0]) == [] && Outgoings(listing[..0], job, weather[..0]) == [] && Follow(was, []) == was;
      for i := 0 to |listing|
        invariant Midway(was, job, listing, weather, i)
      {
        ServeNext(was, job, listing, weather, i);
      }
      assert listing[..|listing|] == listing && weather[..|weather|] == weather;
      FollowStep(was, Sends(weather), Finish);
      Stop(job);
    }

    /** The first i of the listed endpoints have been served since `was`. */
    ghost predicate Midway(was: State, job: Job, listing: seq<Endpoint>, weather: seq<Weather>, i: nat)
      requires i <= |listing| == |weather|
      reads this
    {
      && Valid() && worker == Sending(job, listing, i) && finished == was.finished
      && View() == Follow(was, Sends(weather[..i]))
      && sent == was.sent + Outgoings(listing[..i], job, weather[..i])
    }

    method ServeNext(ghost was: State, job: Job, listing: seq<Endpoint>, weather: seq<Weather>, i: nat)
      requires i < |listing| == |weather| && Midway(was, job, listing, weather, i)
      modifies this`deliveries, this`sent, this`worker
      ensures Midway(was, job, listing, weather, i + 1)
    {
      hide Valid, View, Follow, Sends, Outgoings, Outgoing, Subscribed, Next;
      OutgoingsStep(listing, job, weather, i);
      SendsStep(weather, i);
      FollowStep(was, Sends(weather[..i]), Send(weather[i].tries, weather[i].stored));
      Serve(listing[i], job, weather[i]);
    }

    /** The worker's loop over the events that are waiting: it takes and dispatches them in order. */
    method Drain(forecasts: seq<Forecast>)
      requires Valid() && worker.Idle? && |forecasts| == |queue|
      requires forall i | 0 <= i < |forecasts| :: forecasts[i].Fits(hooks)
      modifies this`queue, this`deliveries, this`sent, this`worker, this`finished
      ensures Valid() && worker.Idle? && queue == []
      ensures Jobs(finished) == Jobs(old(finished)) + old(queue)
      ensures View() == Follow(old(View()), Shift(forecasts))
    {
      ghost var was, i := View(), 0;
      var todo := forecasts;
      while queue != []
        invariant i <= |was.queue| == |forecasts| && todo == forecasts[i..] && hooks == was.endpoints
        invariant Drained(was, forecasts, i)
        decreases |queue|
      {
        DrainOne(was, forecasts, i, todo[0]);
        todo, i := todo[1..], i + 1;
      }
      assert forecasts[..i] == forecasts && was.queue[..i] == was.queue;
      hide Shift, Follow, Next;
    }

    /** The first i of the events that waited have been dispatched since `was`. */
    ghost predicate Drained(was: State, forecasts: seq<Forecast>, i: nat)
      requires i <= |was.queue| == |forecasts|
      reads this
    {
      && Valid() && worker.Idle? && queue == was.queue[i..]
      && Jobs(finished) == Jobs(was.finished) + was.queue[..i]
      && View() == Follow(was, Shift(forecasts[..i]))
    }

    /** One iteration: a receive and its dispatch. */
    method DrainOne(ghost was: State, ghost forecasts: seq<Forecast>, ghost i: nat, forecast: Forecast)
      requires i < |was.queue| == |forecasts| && forecast == forecasts[i] && forecast.Fits(hooks)
      requires Drained(was, forecasts, i)
      modifies this`queue, this`deliveries, this`sent, this`worker, this`finished
      ensures Drained(was, forecasts, i + 1)
    {
      hide Lists, Table, Turn, Follow, Shift;
      var job := Receive();
      hide Next, View;
      FollowStep(was, Shift(forecasts[..i]), Take);
      JobsOfLonger(finished, Round(job, forecast.ok));
      hide Jobs;
      Dispatch(job, forecast.ok, forecast.order, forecast.weather);
      FollowMore(was, Shift(forecasts[..i]) + [Take], Turn(forecast.ok, forecast.order, forecast.weather));
      ShiftStep(forecasts, i);
      assert was.queue[..i + 1] == was.queue[..i] + [job];
    }

    /** The end of a round. */
    ghost method Stop(job: Job)
      requires worker.Sending? && worker.done == |worker.listing| && job == worker.job
      modifies this`worker, this`finished
      ensures View() == Next(old(View()), Finish) && worker.Idle? && finished == old(finished) + [Round(job, true)]
    {
      worker, finished := Idle, finished + [Round(job, true)];
    }
  }
}
