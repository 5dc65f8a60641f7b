/**
 * The live fitness-metrics relay: a POST endpoint that fans a parsed JSON body
 * out to every registered listener, and a server-sent-events endpoint whose
 * streams each own a FIFO queue that their listener appends to and that their
 * loop drains as `metrics` events, with a `ping` when a wake finds it empty.
 *
 * The request handlers interleave only at their `await`s. Here each method
 * call is one step of a handler: a POST, a stream opening, a disconnect, a
 * wake, or a drain, which writes the whole queue in one step although
 * fitness.ts awaits each write. The scheduler (which request runs next,
 * whether a stream's race is won by the notification or by the 15 s timer)
 * is whoever calls the methods.
 */
module Fitness {
  import opened Wrappers
  import opened Json
  import opened Seqs
  import opened Numerals

  /** The identity of one open event stream: in fitness.ts, its listener closure. */
  type Id = nat

  /** One `stream.writeSSE` call: event name, data, and the optional retry advice in ms. */
  datatype SseEvent = SseEvent(event: string, data: string, retry: Option<nat>)

  /** What the POST handler answers: an HTTP status and a JSON body. */
  datatype Response = Response(status: nat, body: Json)

  const RetryMs: nat := 3000

  const Ack := Response(200, JObj([Member("ok", JBool(true))]))

  const InvalidJson := Response(400, JObj([Member("error", JStr("invalid JSON"))]))

  /** The keep-alive event written when a wake finds the queue empty. */
  const Ping := SseEvent("ping", "", None)

  /** The event a drained payload is written as: a `metrics` event, never mistaken for a keep-alive. */
  function MetricsEvent(payload: Json): (e: SseEvent)
    ensures IsMetrics(e) && e.retry == Some(RetryMs) && e != Ping
  {
    SseEvent("metrics", Stringify(payload), Some(RetryMs))
  }

  /** The events a batch of payloads is written as: one each, all of them `metrics` events. */
  function MetricsEvents(payloads: seq<Json>): (events: seq<SseEvent>)
    ensures |events| == |payloads|
    ensures Metrics(events) == events
  {
    var events := seq(|payloads|, i requires 0 <= i < |payloads| => MetricsEvent(payloads[i]));
    FilterAll(events, IsMetrics);
    events
  }

  predicate IsMetrics(e: SseEvent) {
    e.event == "metrics"
  }

  /** The `metrics` events of a stream's output, in the order they were written. */
  function Metrics(events: seq<SseEvent>): seq<SseEvent> {
    Filter(events, IsMetrics)
  }

  /** A stream writes nothing but `metrics` events and empty `ping` events. */
  ghost predicate OnlyMetricsAndPings(events: seq<SseEvent>) {
    forall i :: 0 <= i < |events| ==> IsMetrics(events[i]) || events[i] == Ping
  }

  lemma MetricsEventsAppend(a: seq<Json>, b: seq<Json>)
    ensures MetricsEvents(a + b) == MetricsEvents(a) + MetricsEvents(b)
  {
  }

  lemma {:induction false} MetricsAppendOne(events: seq<SseEvent>, e: SseEvent)
    ensures Metrics(events + [e]) == Metrics(events) + (if IsMetrics(e) then [e] else [])
  {
    FilterAppend(events, [e], IsMetrics);
    assert Filter([e], IsMetrics) == (if IsMetrics(e) then [e] else []) by {
      assert [e][1..] == [];
    }
  }

  /**
   * A stream that joined when `from` bodies had been published and is due
   * those up to `end` has written the first ones as `metrics` events of its
   * `log` (its `drained` payloads) and still queues the rest.
   */
  ghost predicate Delivered(published: seq<Json>, from: nat, end: nat,
                            drained: seq<Json>, queue: seq<Json>, log: seq<SseEvent>)
  {
    && from <= end <= |published|
    && drained + queue == published[from..end]
    && Metrics(log) == MetricsEvents(drained)
  }

  /** A publish while the stream's listener is registered appends the body to its queue. */
  lemma PublishReaches(published: seq<Json>, body: Json, from: nat,
                       drained: seq<Json>, queue: seq<Json>, log: seq<SseEvent>)
    requires Delivered(published, from, |published|, drained, queue, log)
    ensures Delivered(published + [body], from, |published| + 1, drained, queue + [body], log)
  {
    assert (published + [body])[from..|published| + 1] == published[from..|published|] + [body];
  }

  /** A publish after the stream's listener was dropped leaves the stream as it was. */
  lemma PublishPasses(published: seq<Json>, body: Json, from: nat, end: nat,
                      drained: seq<Json>, queue: seq<Json>, log: seq<SseEvent>)
    requires Delivered(published, from, end, drained, queue, log)
    ensures Delivered(published + [body], from, end, drained, queue, log)
  {
    assert (published + [body])[from..end] == published[from..end];
  }

  /** Shifting the oldest queued payload and writing it as a `metrics` event keeps the account. */
  lemma {:induction false} DrainOne(published: seq<Json>, from: nat, end: nat,
                                    drained: seq<Json>, queue: seq<Json>, log: seq<SseEvent>)
    requires Delivered(published, from, end, drained, queue, log)
    requires queue != []
    ensures Delivered(published, from, end, drained + [queue[0]], queue[1..], log + [MetricsEvent(queue[0])])
  {
    assert drained + [queue[0]] + queue[1..] == drained + queue;
    MetricsAppendOne(log, MetricsEvent(queue[0]));
    MetricsEventsAppend(drained, [queue[0]]);
    assert MetricsEvents([queue[0]]) == [MetricsEvent(queue[0])];
  }

  /** A keep-alive event does not count as a delivered payload. */
  lemma {:induction false} PingDeliversNothing(published: seq<Json>, from: nat, end: nat,
                                               drained: seq<Json>, queue: seq<Json>, log: seq<SseEvent>)
    requires Delivered(published, from, end, drained, queue, log)
    ensures Delivered(published, from, end, drained, queue, log + [Ping])
  {
    MetricsAppendOne(log, Ping);
  }

  /** Writing a stream's whole queue as `metrics` events keeps the account and empties the queue. */
  lemma DrainAll(published: seq<Json>, from: nat, end: nat,
                 drained: seq<Json>, queue: seq<Json>, log: seq<SseEvent>)
    requires Delivered(published, from, end, drained, queue, log)
    ensures Delivered(published, from, end, drained + queue, [], log + MetricsEvents(queue))
  {
    FilterAppend(log, MetricsEvents(queue), IsMetrics);
    MetricsEventsAppend(drained, queue);
    assert drained + queue + [] == drained + queue;
  }

  /**
   * The relay's ghost bookkeeping: every body handed to the listeners, in
   * publish order; for each stream, how many had been published when it
   * opened and, once its listener threw, when it was dropped; and the
   * payloads each stream has already written as `metrics` events.
   */
  datatype Ledger = Ledger(published: seq<Json>, joined: map<Id, nat>, dropped: map<Id, nat>,
                           drained: map<Id, seq<Json>>)

  /** How many of the published bodies stream `id` is due: all while it is registered. */
  ghost function DueEnd(id: Id, listeners: set<Id>, g: Ledger): nat
    requires id in listeners || id in g.dropped
  {
    if id in listeners then |g.published| else g.dropped[id]
  }

  /**
   * Stream `id`, when open, has received exactly the bodies published while
   * its listener was registered, in publish order, each once.
   */
  ghost predicate StreamAccounted(id: Id, listeners: set<Id>, pending: map<Id, seq<Json>>,
                                  log: map<Id, seq<SseEvent>>, g: Ledger)
  {
    id in pending ==>
      && id in log && id in g.joined && id in g.drained
      && (id in listeners || id in g.dropped)
      && Delivered(g.published, g.joined[id], DueEnd(id, listeners, g), g.drained[id], pending[id], log[id])
  }

  ghost predicate Accounted(listeners: set<Id>, pending: map<Id, seq<Json>>, log: map<Id, seq<SseEvent>>,
                            g: Ledger)
  {
    forall id :: StreamAccounted(id, listeners, pending, log, g)
  }

  /** Every stream opened so far has an identity below `nextId` and writes only metrics and pings. */
  ghost predicate LogsOk(log: map<Id, seq<SseEvent>>, nextId: nat) {
    forall id :: id in log ==> id < nextId && OnlyMetricsAndPings(log[id])
  }

  /** The ledger once `body` is handed out and the listeners of `gone` have thrown. */
  ghost function AfterPublish(g: Ledger, gone: set<Id>, body: Json): Ledger {
    g.(published := g.published + [body],
       dropped := map id | id in g.dropped.Keys + gone :: if id in gone then |g.published| else g.dropped[id])
  }

  /** A new stream with an empty queue and log starts with an empty account. */
  lemma SubscribeAccounted(listeners: set<Id>, pending: map<Id, seq<Json>>, log: map<Id, seq<SseEvent>>,
                           g: Ledger, nextId: nat)
    requires Accounted(listeners, pending, log, g) && LogsOk(log, nextId) && pending.Keys <= log.Keys
    ensures Accounted(listeners + {nextId}, pending[nextId := []], log[nextId := []],
                      g.(joined := g.joined[nextId := |g.published|], drained := g.drained[nextId := []]))
    ensures LogsOk(log[nextId := []], nextId + 1)
  {
    var g' := g.(joined := g.joined[nextId := |g.published|], drained := g.drained[nextId := []]);
    var (listeners', pending', log') := (listeners + {nextId}, pending[nextId := []], log[nextId := []]);
    forall x ensures StreamAccounted(x, listeners', pending', log', g') {
      if x == nextId {
        assert Metrics([]) == [];
      } else {
        assert StreamAccounted(x, listeners, pending, log, g);
      }
    }
  }

  /**
   * The ledger once stream `id`'s listener is unregistered: a stream whose
   * listener was still registered is due nothing published from now on.
   */
  ghost function AfterAbort(g: Ledger, listeners: set<Id>, id: Id): Ledger {
    if id in listeners then g.(dropped := g.dropped[id := |g.published|]) else g
  }

  /** Unregistering a listener keeps every stream's queue and every account. */
  lemma AbortAccounted(listeners: set<Id>, pending: map<Id, seq<Json>>, log: map<Id, seq<SseEvent>>,
                       g: Ledger, id: Id)
    requires Accounted(listeners, pending, log, g)
    ensures Accounted(listeners - {id}, pending, log, AfterAbort(g, listeners, id))
  {
    var (listeners', g') := (listeners - {id}, AfterAbort(g, listeners, id));
    forall x ensures StreamAccounted(x, listeners', pending, log, g') {
      assert StreamAccounted(x, listeners, pending, log, g);
    }
  }

  /**
   * A publish appends the body to the queue of every registered stream whose
   * listener returns; the streams of the listeners that threw stop being due
   * anything more.
   */
  lemma PublishAccounted(listeners: set<Id>, pending: map<Id, seq<Json>>, log: map<Id, seq<SseEvent>>,
                         g: Ledger, body: Json, failing: set<Id>, pending': map<Id, seq<Json>>)
    requires Accounted(listeners, pending, log, g)
    requires pending'.Keys == pending.Keys
    requires forall x :: x in pending' ==>
               pending'[x] == if x in listeners && x !in failing then pending[x] + [body] else pending[x]
    ensures Accounted(listeners - failing, pending', log, AfterPublish(g, listeners * failing, body))
  {
    var g' := AfterPublish(g, listeners * failing, body);
    var n := |g.published|;
    var listeners' := listeners - failing;
    forall x | x in pending' ensures StreamAccounted(x, listeners', pending', log, g') {
      assert StreamAccounted(x, listeners, pending, log, g);
      var (j, d, q, l) := (g.joined[x], g.drained[x], pending[x], log[x]);
      if x in listeners && x !in failing {
        PublishReaches(g.published, body, j, d, q, l);
      } else if x in listeners {
        PublishPasses(g.published, body, j, n, d, q, l);
      } else {
        PublishPasses(g.published, body, j, g.dropped[x], d, q, l);
      }
    }
  }

  /** Draining stream `id` moves its whole queue into what it has written. */
  lemma DrainAccounted(listeners: set<Id>, pending: map<Id, seq<Json>>, log: map<Id, seq<SseEvent>>,
                       g: Ledger, nextId: nat, id: Id)
    requires Accounted(listeners, pending, log, g) && LogsOk(log, nextId) && id in pending
    ensures id in log && id in g.drained
    ensures Accounted(listeners, pending[id := []], log[id := log[id] + MetricsEvents(pending[id])],
                      g.(drained := g.drained[id := g.drained[id] + pending[id]]))
    ensures LogsOk(log[id := log[id] + MetricsEvents(pending[id])], nextId)
  {
    assert StreamAccounted(id, listeners, pending, log, g);
    var log' := log[id := log[id] + MetricsEvents(pending[id])];
    var g' := g.(drained := g.drained[id := g.drained[id] + pending[id]]);
    DrainAll(g.published, g.joined[id], DueEnd(id, listeners, g), g.drained[id], pending[id], log[id]);
    var pending' := pending[id := []];
    forall x ensures StreamAccounted(x, listeners, pending', log', g') {
      assert StreamAccounted(x, listeners, pending, log, g);
    }
    forall x | x in log' ensures x < nextId && OnlyMetricsAndPings(log'[x]) {
      assert x in log;
    }
  }

  /** A ping on an empty queue keeps every account. */
  lemma WakeAccounted(listeners: set<Id>, pending: map<Id, seq<Json>>, log: map<Id, seq<SseEvent>>,
                      g: Ledger, nextId: nat, id: Id)
    requires Accounted(listeners, pending, log, g) && LogsOk(log, nextId) && id in pending && id in log
    ensures Accounted(listeners, pending, log[id := log[id] + [Ping]], g)
    ensures LogsOk(log[id := log[id] + [Ping]], nextId)
  {
    assert StreamAccounted(id, listeners, pending, log, g);
    var log' := log[id := log[id] + [Ping]];
    PingDeliversNothing(g.published, g.joined[id], DueEnd(id, listeners, g), g.drained[id], pending[id], log[id]);
    forall x ensures StreamAccounted(x, listeners, pending, log', g) {
      assert StreamAccounted(x, listeners, pending, log, g);
    }
    forall x | x in log' ensures x < nextId && OnlyMetricsAndPings(log'[x]) {
      assert x in log;
    }
  }

  /** One more payload of `queue` written: the written prefix grows by its event, the rest shrinks by it. */
  lemma WriteStep(before: seq<SseEvent>, queue: seq<Json>, k: nat)
    requires k < |queue|
    ensures before + MetricsEvents(queue[..k + 1]) == before + MetricsEvents(queue[..k]) + [MetricsEvent(queue[k])]
    ensures queue[k + 1..] == queue[k..][1..]
  {
    assert queue[..k + 1] == queue[..k] + [queue[k]];
    MetricsEventsAppend(queue[..k], [queue[k]]);
    assert MetricsEvents([queue[k]]) == [MetricsEvent(queue[k])];
  }

  class Relay {
    /** The module-level `listeners` Set: the streams whose listener is registered. */
    var listeners: set<Id>
    /** Each open stream's `pending` queue; its keys are the open streams. */
    var pending: map<Id, seq<Json>>
    /** The open streams suspended in the race between a notification and the keep-alive timer. */
    var waiting: set<Id>
    /** Everything each stream ever opened has written, in order. */
    var log: map<Id, seq<SseEvent>>
    /** The identity the next stream gets. */
    var nextId: nat
    /** What has been published and what each stream is due and has written of it. */
    ghost var ledger: Ledger

    ghost predicate Valid()
      reads this
    {
      && listeners <= pending.Keys
      && waiting <= pending.Keys
      && pending.Keys <= log.Keys
      && Accounted(listeners, pending, log, ledger)
      && LogsOk(log, nextId)
    }

    /**
     * What the invariant promises a client of stream `id`: the `metrics`
     * events it has been sent, followed by those its queue still holds, are
     * the bodies published from the moment it opened until its listener was
     * dropped (or until now), in publish order, each once.
     */
    lemma StreamAccount(id: Id)
      requires Valid() && id in pending
      ensures id in ledger.joined && (id in listeners || id in ledger.dropped)
      ensures ledger.joined[id] <= DueEnd(id, listeners, ledger) <= |ledger.published|
      ensures Metrics(log[id]) + MetricsEvents(pending[id]) ==
                MetricsEvents(ledger.published[ledger.joined[id]..DueEnd(id, listeners, ledger)])
    {
      assert StreamAccounted(id, listeners, pending, log, ledger);
      MetricsEventsAppend(ledger.drained[id], pending[id]);
    }

    /** The relay when the module is loaded: no listener, no stream. */
    constructor ()
      ensures Valid()
      ensures listeners == {} && pending == map[] && waiting == {} && log == map[]
      ensures ledger == Ledger([], map[], map[], map[])
    {
      listeners, pending, waiting, log, nextId := {}, map[], {}, map[], 0;
      ledger := Ledger([], map[], map[], map[]);
    }

    /**
     * A client opens `/events`: a new stream with an empty queue, whose
     * listener is added to the registry.
     */
    method Subscribe() returns (id: Id)
      requires Valid()
      modifies this
      ensures Valid()
      ensures id !in old(log) && id == old(nextId) && nextId == id + 1
      ensures listeners == old(listeners) + {id}
      ensures pending == old(pending)[id := []]
      ensures log == old(log)[id := []]
      ensures waiting == old(waiting)
      ensures ledger == old(ledger).(joined := old(ledger).joined[id := |old(ledger).published|],
                                     drained := old(ledger).drained[id := []])
    {
      id := nextId;
      SubscribeAccounted(listeners, pending, log, ledger, nextId);
      nextId := nextId + 1;
      listeners := listeners + {id};
      pending := pending[id := []];
      log := log[id := []];
      ledger := ledger.(joined := ledger.joined[id := |ledger.published|], drained := ledger.drained[id := []]);
    }

    /**
     * The client of stream `id` disconnects: `onAbort` deletes its listener
     * from the registry, and that is all. The stream's loop has no exit, so
     * its queue stays and it goes on draining and waking.
     */
    method Abort(id: Id)
      requires Valid()
      modifies this
      ensures Valid()
      ensures listeners == old(listeners) - {id}
      ensures ledger == AfterAbort(old(ledger), old(listeners), id)
      ensures pending == old(pending) && waiting == old(waiting)
      ensures log == old(log) && nextId == old(nextId)
    {
      AbortAccounted(listeners, pending, log, ledger, id);
      ledger := AfterAbort(ledger, listeners, id);
      listeners := listeners - {id};
    }

    /**
     * A POST to `/`. `parsed` is what `c.req.json()` produced (`None` when it
     * threw); `failing` are the listeners that throw when called. Each
     * listener registered at the start is called once, so each stream whose
     * listener returns gets the body exactly once.
     */
    method Publish(parsed: Option<Json>, failing: set<Id>) returns (response: Response)
      requires Valid()
      modifies this
      ensures Valid()
      ensures parsed.None? ==> response == InvalidJson && unchanged(this)
      ensures parsed.Some? ==> response == Ack
      ensures parsed.Some? ==> listeners == old(listeners) - failing
      ensures pending.Keys == old(pending).Keys
      ensures parsed.Some? ==> forall id :: id in pending ==>
                pending[id] == if id in old(listeners) && id !in failing
                               then old(pending)[id] + [parsed.value]
                               else old(pending)[id]
      ensures log == old(log) && waiting == old(waiting) && nextId == old(nextId)
      ensures parsed.Some? ==> ledger == AfterPublish(old(ledger), old(listeners) * failing, parsed.value)
      ensures parsed.Some? ==> ledger.published == old(ledger.published) + [parsed.value]
    {
      if parsed.None? {
        return InvalidJson;
      }
      var body := parsed.value;
      ghost var (before, queues) := (listeners, pending);
      CallListeners(body, failing);
      PublishAccounted(before, queues, log, ledger, body, failing, pending);
      ledger := AfterPublish(ledger, before * failing, body);
      response := Ack;
    }

    /**
     * The `for (const fn of listeners)` loop: each listener registered when it
     * starts is called once; one that throws is deleted from the registry and
     * the loop goes on, one that returns has appended `body` to its queue.
     */
    method CallListeners(body: Json, failing: set<Id>)
      requires listeners <= pending.Keys
      modifies this`listeners, this`pending
      ensures listeners == old(listeners) - failing
      ensures pending.Keys == old(pending).Keys
      ensures forall id :: id in pending ==>
                pending[id] == if id in old(listeners) && id !in failing
                               then old(pending)[id] + [body]
                               else old(pending)[id]
    {
      var remaining := listeners;
      while remaining != {}
        invariant remaining <= old(listeners)
        invariant listeners == old(listeners) - (failing - remaining)
        invariant pending.Keys == old(pending).Keys
        invariant forall id :: id in pending ==>
                    pending[id] == if id in old(listeners) && id !in remaining && id !in failing
                                   then old(pending)[id] + [body]
                                   else old(pending)[id]
        decreases remaining
      {
        var id :| id in remaining;
        remaining := remaining - {id};
        if id in failing {
          listeners := listeners - {id};
        } else {
          pending := pending[id := pending[id] + [body]];
        }
      }
    }

    /**
     * The inner loop of stream `id`: every queued payload is shifted off the
     * queue and written as a `metrics` event, oldest first; then the stream
     * suspends in the race.
     */
    method Drain(id: Id)
      requires Valid()
      requires id in pending && id !in waiting
      modifies this
      ensures Valid()
      ensures log == old(log)[id := old(log)[id] + MetricsEvents(old(pending)[id])]
      ensures pending == old(pending)[id := []]
      ensures waiting == old(waiting) + {id}
      ensures listeners == old(listeners) && nextId == old(nextId)
      ensures id in old(ledger).drained
      ensures ledger == old(ledger).(drained := old(ledger).drained[id := old(ledger).drained[id] + old(pending)[id]])
    {
      DrainAccounted(listeners, pending, log, ledger, nextId, id);
      ghost var queue := pending[id];
      WriteQueued(id);
      ledger := ledger.(drained := ledger.drained[id := ledger.drained[id] + queue]);
      waiting := waiting + {id};
    }

    /** The `while (pending.length > 0)` loop of stream `id`. */
    method WriteQueued(id: Id)
      requires id in pending && id in log
      modifies this`pending, this`log
      ensures pending == old(pending)[id := []]
      ensures log == old(log)[id := old(log)[id] + MetricsEvents(old(pending)[id])]
    {
      ghost var queue := pending[id];
      ghost var k := 0;
      assert log[id := log[id] + MetricsEvents(queue[..0])] == log by {
        assert queue[..0] == [] && MetricsEvents([]) == [] && log[id] + [] == log[id];
      }
      while pending[id] != []
        invariant id in pending && id in log
        invariant 0 <= k <= |queue|
        invariant pending == old(pending)[id := queue[k..]]
        invariant log == old(log)[id := old(log)[id] + MetricsEvents(queue[..k])]
        decreases |pending[id]|
      {
        var payload := pending[id][0];
        WriteStep(old(log)[id], queue, k);
        pending := pending[id := pending[id][1..]];
        log := log[id := log[id] + [MetricsEvent(payload)]];
        k := k + 1;
      }
      assert queue[..k] == queue;
    }

    /**
     * Stream `id`'s race is over, won by the notification or by the timer: a
     * `ping` is written when the queue is empty, and the stream goes back to
     * draining.
     */
    method Wake(id: Id)
      requires Valid()
      requires id in waiting
      modifies this
      ensures Valid()
      ensures waiting == old(waiting) - {id}
      ensures log == if old(pending)[id] == [] then old(log)[id := old(log)[id] + [Ping]] else old(log)
      ensures pending == old(pending) && listeners == old(listeners) && nextId == old(nextId)
      ensures ledger == old(ledger)
    {
      waiting := waiting - {id};
      if pending[id] == [] {
        WakeAccounted(listeners, pending, log, ledger, nextId, id);
        log := log[id := log[id] + [Ping]];
      }
    }
  }

  /** A POST of a body that does not parse, while one stream is open, is refused and reaches nobody. */
  method InvalidBodyScenario() returns (response: Response, queue: seq<Json>, registered: set<Id>)
    ensures response == InvalidJson && queue == [] && |registered| == 1
  {
    var relay := new Relay();
    var id := relay.Subscribe();
    response := relay.Publish(None, {});
    queue, registered := relay.pending[id], relay.listeners;
  }

  /** A relay with one stream, opened, drained of its empty queue and waiting. */
  method WaitingStream() returns (relay: Relay, id: Id)
    ensures fresh(relay) && relay.Valid()
    ensures relay.listeners == {id} && id in relay.waiting
    ensures id in relay.pending && relay.pending[id] == [] && id in relay.log && relay.log[id] == []
  {
    relay := new Relay();
    id := relay.Subscribe();
    relay.Drain(id);
  }

  /** A publish to that waiting stream, and the wake that follows: the body is queued and no ping is written. */
  method PublishAndWake(relay: Relay, id: Id, body: Json) returns (response: Response)
    requires relay.Valid()
    requires relay.listeners == {id} && id in relay.waiting
    requires id in relay.pending && relay.pending[id] == [] && id in relay.log && relay.log[id] == []
    modifies relay
    ensures relay.Valid() && response == Ack
    ensures id in relay.pending && relay.pending[id] == [body] && id in relay.log && relay.log[id] == []
    ensures id !in relay.waiting
  {
    response := relay.Publish(Some(body), {});
    relay.Wake(id);
  }

  /**
   * A POST of `{"<key>": <value>}` (`{"heartRate": 72}`, say) while one
   * stream is open and waiting: it is acknowledged, and the stream, woken,
   * writes it once as a `metrics` event, with no ping before it.
   */
  method OneStreamScenario(key: string, value: nat) returns (accepted: Response, events: seq<SseEvent>)
    requires forall i :: 0 <= i < |key| ==> IsPlain(key[i])
    ensures accepted == Ack
    ensures events == [SseEvent("metrics", "{\"" + key + "\":" + Decimal(value) + "}", Some(3000))]
  {
    var body := JObj([Member(key, JNum(value))]);
    var relay, id := WaitingStream();
    accepted := PublishAndWake(relay, id, body);
    relay.Drain(id);
    events := relay.log[id];
    assert events == [MetricsEvent(body)];
    StringifyOneMember(key, JNum(value));
  }

  /** A relay with two freshly opened streams and nothing published. */
  method TwoStreams() returns (relay: Relay, a: Id, b: Id)
    ensures fresh(relay) && relay.Valid() && a != b
    ensures relay.listeners == {a, b} && a in relay.pending && b in relay.pending
    ensures relay.pending[a] == [] && relay.pending[b] == []
  {
    relay := new Relay();
    a := relay.Subscribe();
    b := relay.Subscribe();
  }

  /** A publish during which the listener of `a` throws: `a` is dropped, `b` queues the body. */
  method PublishDroppingFirst(relay: Relay, a: Id, b: Id, p: Json)
    requires relay.Valid() && a != b
    requires relay.listeners == {a, b} && a in relay.pending && b in relay.pending
    requires relay.pending[a] == [] && relay.pending[b] == []
    modifies relay
    ensures relay.Valid()
    ensures relay.listeners == {b} && a in relay.pending && b in relay.pending
    ensures relay.pending[a] == [] && relay.pending[b] == [p]
  {
    var response := relay.Publish(Some(p), {a});
    assert {a, b} - {a} == {b};
  }

  /**
   * Two streams; the first one's listener throws on the first publish. It is
   * dropped after that one attempt, the second listener is still called, and
   * a later publish reaches only the second stream.
   */
  method ThrowingListenerScenario(p: Json, q: Json)
    returns (first: Id, second: Id, firstQueue: seq<Json>, secondQueue: seq<Json>, registered: set<Id>)
    ensures first != second && registered == {second}
    ensures firstQueue == [] && secondQueue == [p, q]
  {
    var relay;
    relay, first, second := TwoStreams();
    PublishDroppingFirst(relay, first, second, p);
    var response := relay.Publish(Some(q), {});
    firstQueue, secondQueue, registered := relay.pending[first], relay.pending[second], relay.listeners;
  }

  /** A relay with one stream whose client has disconnected, and nothing published. */
  method AbortedStream() returns (relay: Relay, id: Id)
    ensures fresh(relay) && relay.Valid()
    ensures relay.listeners == {} && id !in relay.waiting && relay.ledger.published == []
    ensures id in relay.pending && relay.pending[id] == [] && id in relay.log && relay.log[id] == []
  {
    relay := new Relay();
    id := relay.Subscribe();
    relay.Abort(id);
  }

  /**
   * After its client disconnects, a stream is never handed a published body,
   * yet its loop runs on: once woken it writes a keep-alive `ping`.
   */
  method AbortedStreamScenario(p: Json) returns (accepted: Response, queue: seq<Json>, events: seq<SseEvent>)
    ensures accepted == Ack && queue == [] && events == [Ping]
  {
    var relay, id := AbortedStream();
    accepted := relay.Publish(Some(p), {});
    assert relay.ledger.published == [p];
    relay.Drain(id);
    relay.Wake(id);
    queue, events := relay.pending[id], relay.log[id];
  }
}
