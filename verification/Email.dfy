/** Email delivery: outbox rows, the broker, any number of consumers that may crash, the database and the provider. */
module Email {
  import opened Schema
  import opened Outbox

  datatype Pending = Pending(template: Template, token: Hash, expiresAt: Time)

  datatype Delivery = Delivery(id: Id, template: Template, token: Hash)

  // ----- the capturing provider -----

  ghost predicate InStep(accepted: map<Id, Delivery>, order: seq<Id>) {
    && (forall i, j {:trigger order[i], order[j]} :: 0 <= i < j < |order| ==> order[i] != order[j])
    && (forall d :: d in order <==> d in accepted)
    && (forall d :: d in accepted ==> accepted[d].id == d)
  }

  class LocalEmailSender {
    var accepted: map<Id, Delivery>
    var order: seq<Id>

    ghost predicate Valid()
      reads this
    {
      InStep(accepted, order)
    }

    constructor ()
      ensures Valid() && accepted == map[] && order == []
    {
      accepted, order := map[], [];
    }

    /** Captures a delivery identifier once; sending it again succeeds and changes nothing. */
    method Send(delivery: Delivery, wellFormed: bool) returns (ok: bool)
      requires Valid()
      modifies this
      ensures Valid() && ok == (delivery.id != 0 && (delivery.id in old(accepted) || wellFormed))
      ensures ok && delivery.id !in old(accepted) ==>
                accepted == old(accepted)[delivery.id := delivery] && order == old(order) + [delivery.id]
      ensures !ok || delivery.id in old(accepted) ==> accepted == old(accepted) && order == old(order)
    {
      if delivery.id == 0 { return false; }
      if delivery.id in accepted { return true; }
      if !wellFormed { return false; }
      accepted := accepted[delivery.id := delivery];
      order := order + [delivery.id];
      ok := true;
    }

    /** The captured deliveries in the order the provider accepted them, each once. */
    method Captured() returns (result: seq<Delivery>)
      requires Valid()
      ensures |result| == |order| && forall i ::
                0 <= i < |order| ==> order[i] in accepted && result[i] == accepted[order[i]]
      ensures forall i, j :: 0 <= i < j < |result| ==> result[i].id != result[j].id
      ensures forall d :: d in accepted ==> accepted[d] in result
    {
      result := [];
      var i := 0;
      while i < |order|
        invariant 0 <= i <= |order| && |result| == i
        invariant forall j {:trigger result[j]} ::
                    0 <= j < i ==> order[j] in accepted && result[j] == accepted[order[j]]
      {
        assert order[i] in order;
        result := result + [accepted[order[i]]];
        i := i + 1;
      }
      forall d | d in accepted ensures accepted[d] in result {
        assert d in order;
        var j :| 0 <= j < |order| && order[j] == d;
        assert result[j] == accepted[d];
      }
    }
  }

  // ----- the pipeline -----

  /** One claim of one row, between the steps of the publisher's loop. */
  datatype Claiming = Claiming(message: Message, at: Time, step: Step)

  datatype Step = Claimed | Answered | Unanswered | Finished

  /** One handling of one message, between the atomic steps of Consume and of the intake loop. */
  datatype Stage = Fetched | Unconsumed | Loaded(delivery: Delivery) | Accepted | Succeeded | Failed | Over

  datatype Handling = Handling(message: Message, at: Time, stage: Stage)

  datatype World = World(
    clock: Time,
    outbox: map<Id, Row>,
    claimings: map<Id, Claiming>,         // any number of publishers
    broker: set<Message>,                 // messages the broker ever received
    acked: set<Message>,
    consumed: set<Id>,                    // recorded event identifiers
    pending: map<Id, Pending>,            // protected deliveries by identifier
    provider: set<Id>,                    // delivery identifiers the provider accepted
    sent: set<Delivery>,                  // what it accepted under each of them
    requested: set<Delivery>,             // everything a service ever asked to deliver
    handlings: map<Id, Handling>)

  datatype Fault = Clean | NotDone | Unheard

  datatype Action =
    | Tick(to: Time)
    | Request(message: Message, pending: Pending,
              at: Time)   // a service transaction appends the event with its pending delivery
    | Withdraw(delivery: Id)                                  // a service clears or replaces a pending delivery
    | Claim(claiming: Id, event: Id, at: Time)
    | Publish(claiming: Id, fault: Fault)
    | MarkPublished(claiming: Id, fault: Fault)
    | Release(claiming: Id, delay: Time, fault: Fault)
    | Abandon(claiming: Id)
    | Fetch(handling: Id, message: Message, at: Time)
    | LookUp(handling: Id, fault: Fault)
    | Load(handling: Id, fault: Fault)
    | Send(handling: Id, fault: Fault)
    | Commit(handling: Id, fault: Fault)
    | Ack(handling: Id)
    | Nak(handling: Id)
    | Crash(handling: Id)

  function To(w: World, h: Id, stage: Stage): World
    requires h in w.handlings
  {
    w.(handlings := w.handlings[h := w.handlings[h].(stage := stage)])
  }

  function Next(w: World, c: Id, step: Step): World
    requires c in w.claimings
  {
    w.(claimings := w.claimings[c := w.claimings[c].(step := step)])
  }

  predicate At(w: World, c: Id, step: Step) { c in w.claimings && w.claimings[c].step == step }

  predicate Deliverable(pending: map<Id, Pending>, m: Message, at: Time) {
    m.delivery in pending && pending[m.delivery].template == m.template && at < pending[m.delivery].expiresAt
  }

  /** Each step is one database statement or transaction, one broker call or one provider call.  `Unheard` happened
      without the caller learning it.  Steps of the publisher: */
  function PublisherStep(w: World, action: Action): World {
    match action
    case Claim(c, e, at) =>
      if c !in w.claimings && e in w.outbox && at <= w.clock && Claimable(w.outbox[e], at)
      then w.(outbox := w.outbox[e := w.outbox[e].(claimed := Some(at + LEASE))],
              claimings := w.claimings[c := Claiming(w.outbox[e].message, at, Claimed)]) else w
    case Publish(c, fault) =>
      if !At(w, c, Claimed) then w else
        var w' := if fault.NotDone? then w else w.(broker := w.broker + {w.claimings[c].message});
        Next(w', c, if fault.Clean? then Answered else Unanswered)
    case MarkPublished(c, fault) =>
      if !At(w, c, Answered) then w else
        var e := w.claimings[c].message.event;
        var w' := if fault.NotDone? || e !in w.outbox || w.outbox[e].published then w
                  else w.(outbox := w.outbox[e := w.outbox[e].(published := true, claimed := None)]);
        Next(w', c, Finished)
    case Release(c, delay, fault) =>
      if !At(w, c, Unanswered) || delay < 8 * SECOND / 10 || delay > 36 * SECOND then w else
        var e := w.claimings[c].message.event;
        var w' := if fault.NotDone? || e !in w.outbox || w.outbox[e].published then w
                  else w.(outbox := w.outbox[e := w.outbox[e].(claimed := None,
                                                               available := w.claimings[c].at + delay)]);
        Next(w', c, Finished)
    case Abandon(c) => if c in w.claimings then Next(w, c, Finished) else w
    case _ => w
  }

  /** Steps of a consumer: */
  function ConsumerStep(w: World, action: Action): World {
    match action
    case Fetch(h, m, at) =>
      if h !in w.handlings && m in w.broker && m !in w.acked
      then w.(handlings := w.handlings[h := Handling(m, at, Fetched)]) else w
    case LookUp(h, fault) =>
      if h in w.handlings && w.handlings[h].stage.Fetched? then
        if !fault.Clean? then To(w, h, Failed)
        else To(w, h, if w.handlings[h].message.event in w.consumed then Succeeded else Unconsumed)
      else w
    case Load(h, fault) =>
      if h in w.handlings && w.handlings[h].stage.Unconsumed? then
        var m := w.handlings[h].message;
        if fault.Clean? && Deliverable(w.pending, m, w.handlings[h].at)
        then To(w, h, Loaded(Delivery(m.delivery, m.template, w.pending[m.delivery].token))) else To(w, h, Failed)
      else w
    case Send(h, fault) =>
      if h in w.handlings && w.handlings[h].stage.Loaded? then
        var d := w.handlings[h].stage.delivery;
        var w' := if fault.NotDone? then w
                  else w.(provider := w.provider + {d.id}, sent := if d.id in w.provider then w.sent else w.sent + {d});
        To(w', h, if fault.Clean? then Accepted else Failed)
      else w
    case Commit(h, fault) =>
      if h in w.handlings && w.handlings[h].stage.Accepted? then
        var m := w.handlings[h].message;
        var w' := if fault.NotDone? || m.event in w.consumed then w
                  else w.(consumed := w.consumed + {m.event}, pending := w.pending - {m.delivery});
        To(w', h, if fault.Clean? then Succeeded else Failed)
      else w
    case Ack(h) => if h in w.handlings && w.handlings[h].stage.Succeeded?
                   then To(w.(acked := w.acked + {w.handlings[h].message}), h, Over) else w
    case Nak(h) => if h in w.handlings && w.handlings[h].stage.Failed? then To(w, h, Over) else w
    case Crash(h) => if h in w.handlings then To(w, h, Over) else w
    case _ => w
  }

  predicate OfPublisher(action: Action) {
    action.Claim? || action.Publish? || action.MarkPublished? || action.Release? || action.Abandon?
  }

  function Apply(w: World, action: Action): World {
    match action
    case Tick(to) => if to > w.clock then w.(clock := to) else w
    case Request(m, p, at) =>
      if m.event in w.outbox || m.delivery in w.pending || at > w.clock then w
      else w.(outbox := w.outbox[m.event := Row(m, false, at, None)], pending := w.pending[m.delivery := p],
              requested := w.requested + {Delivery(m.delivery, p.template, p.token)})
    case Withdraw(d) => w.(pending := w.pending - {d})
    case _ => if OfPublisher(action) then PublisherStep(w, action) else ConsumerStep(w, action)
  }

  function Run(w: World, actions: seq<Action>): World
    decreases |actions|
  {
    if actions == [] then w else Run(Apply(w, actions[0]), actions[1..])
  }

  const START := World(0, map[], map[], {}, {}, {}, map[], {}, {}, {}, map[])

  // ----- what every step keeps -----

  predicate HandlingOk(h: Handling, broker: set<Message>, consumed: set<Id>, provider: set<Id>) {
    && h.message in broker
    && (h.stage.Succeeded? ==> h.message.event in consumed)
    && (h.stage.Accepted? ==> h.message.delivery in provider)
    && (h.stage.Loaded? ==> h.stage.delivery.id == h.message.delivery)
  }

  ghost predicate HandlingsOk(handlings: map<Id, Handling>, broker: set<Message>, consumed: set<Id>,
                              provider: set<Id>) {
    forall h {:trigger handlings[h]} :: h in handlings ==> HandlingOk(handlings[h], broker, consumed, provider)
  }

  predicate InOutbox(outbox: map<Id, Row>, m: Message) { m.event in outbox && outbox[m.event].message == m }

  predicate RowOk(row: Row, e: Id, broker: set<Message>, clock: Time) {
    && row.message.event == e && (row.published ==> row.message in broker)
    && row.available <= clock + 36 * SECOND && (row.claimed.Some? ==> row.claimed.value <= clock + LEASE)
  }

  ghost predicate OutboxOk(outbox: map<Id, Row>, broker: set<Message>, clock: Time) {
    && (forall e {:trigger outbox[e]} :: e in outbox ==> RowOk(outbox[e], e, broker, clock))
    && (forall m {:trigger m in broker} :: m in broker ==> InOutbox(outbox, m))
  }

  ghost predicate ClaimingsOk(claimings: map<Id, Claiming>, outbox: map<Id, Row>, broker: set<Message>, clock: Time) {
    forall c {:trigger claimings[c]} :: c in claimings ==>
      InOutbox(outbox, claimings[c].message) && claimings[c].at <= clock &&
      (claimings[c].step.Answered? ==> claimings[c].message in broker)
  }

  ghost predicate ConsumedOk(w: World) {
    && (forall m {:trigger m in w.acked} :: m in w.acked ==> m in w.broker && m.event in w.consumed)
    && (forall e {:trigger e in w.consumed} :: e in w.consumed ==>
          e in w.outbox && w.outbox[e].message in w.broker && w.outbox[e].message.delivery in w.provider)
  }

  ghost predicate PipelineInv(w: World) {
    && OutboxOk(w.outbox, w.broker, w.clock) && ClaimingsOk(w.claimings, w.outbox, w.broker, w.clock) && ConsumedOk(w)
    && HandlingsOk(w.handlings, w.broker, w.consumed, w.provider)
  }

  lemma HandlingsGrow(handlings: map<Id, Handling>, b: set<Message>, c: set<Id>, p: set<Id>, b': set<Message>,
                      c': set<Id>, p': set<Id>)
    requires HandlingsOk(handlings, b, c, p) && b <= b' && c <= c' && p <= p'
    ensures HandlingsOk(handlings, b', c', p')
  {
  }

  lemma Moved(w: World, h: Id, stage: Stage)
    requires PipelineInv(w) && h in w.handlings &&
             HandlingOk(w.handlings[h].(stage := stage), w.broker, w.consumed, w.provider)
    ensures PipelineInv(To(w, h, stage))
  {
  }

  lemma ServiceKeeps(w: World, action: Action)
    requires PipelineInv(w) && (action.Tick? || action.Request? || action.Withdraw?)
    ensures PipelineInv(Apply(w, action))
  {
  }

  lemma ClaimKeeps(w: World, action: Action)
    requires PipelineInv(w) && (action.Claim? || action.Abandon?)
    ensures PipelineInv(PublisherStep(w, action))
  {
  }

  lemma Stepped(w: World, c: Id, step: Step)
    requires PipelineInv(w) && c in w.claimings && (step.Answered? ==> w.claimings[c].message in w.broker)
    ensures PipelineInv(Next(w, c, step))
  {
  }

  lemma PublishKeeps(w: World, c: Id, fault: Fault)
    requires PipelineInv(w)
    ensures PipelineInv(PublisherStep(w, Publish(c, fault)))
  {
    if At(w, c, Claimed) {
      assert InOutbox(w.outbox, w.claimings[c].message);
      var w' := if fault.NotDone? then w else w.(broker := w.broker + {w.claimings[c].message});
      HandlingsGrow(w.handlings, w.broker, w.consumed, w.provider, w'.broker, w'.consumed, w'.provider);
      Stepped(w', c, if fault.Clean? then Answered else Unanswered);
    }
  }

  lemma RowKeeps(w: World, e: Id, row: Row)
    requires PipelineInv(w) && e in w.outbox && row.message == w.outbox[e].message && RowOk(row, e, w.broker, w.clock)
    ensures PipelineInv(w.(outbox := w.outbox[e := row]))
  {
  }

  /** A row is marked only by a publisher that heard the broker take it. */
  lemma MarkKeeps(w: World, c: Id, fault: Fault)
    requires PipelineInv(w)
    ensures PipelineInv(PublisherStep(w, MarkPublished(c, fault)))
  {
    if At(w, c, Answered) {
      var e := w.claimings[c].message.event;
      assert InOutbox(w.outbox, w.claimings[c].message) && RowOk(w.outbox[e], e, w.broker, w.clock);
      RowKeeps(w, e, w.outbox[e].(published := true, claimed := None));
      var w' := if fault.NotDone? || w.outbox[e].published then w
                else w.(outbox := w.outbox[e := w.outbox[e].(published := true, claimed := None)]);
      Stepped(w', c, Finished);
    }
  }

  lemma ReleaseKeeps(w: World, c: Id, delay: Time, fault: Fault)
    requires PipelineInv(w)
    ensures PipelineInv(PublisherStep(w, Release(c, delay, fault)))
  {
    if At(w, c, Unanswered) && 8 * SECOND / 10 <= delay <= 36 * SECOND {
      var e := w.claimings[c].message.event;
      assert InOutbox(w.outbox, w.claimings[c].message) && RowOk(w.outbox[e], e, w.broker, w.clock);
      RowKeeps(w, e, w.outbox[e].(claimed := None, available := w.claimings[c].at + delay));
      var w' := if fault.NotDone? || w.outbox[e].published then w
                else w.(outbox := w.outbox[e := w.outbox[e].(claimed := None, available := w.claimings[c].at + delay)]);
      Stepped(w', c, Finished);
    }
  }

  lemma PublisherKeeps(w: World, action: Action)
    requires PipelineInv(w) && OfPublisher(action)
    ensures PipelineInv(PublisherStep(w, action))
  {
    match action
    case Publish(c, fault) => PublishKeeps(w, c, fault);
    case MarkPublished(c, fault) => MarkKeeps(w, c, fault);
    case Release(c, delay, fault) => ReleaseKeeps(w, c, delay, fault);
    case _ => ClaimKeeps(w, action);
  }

  lemma SendKeeps(w: World, h: Id, fault: Fault)
    requires PipelineInv(w) && h in w.handlings && w.handlings[h].stage.Loaded?
    ensures PipelineInv(ConsumerStep(w, Send(h, fault)))
  {
    assert HandlingOk(w.handlings[h], w.broker, w.consumed, w.provider);
    var d := w.handlings[h].stage.delivery;
    var w' := if fault.NotDone? then w
              else w.(provider := w.provider + {d.id}, sent := if d.id in w.provider then w.sent else w.sent + {d});
    HandlingsGrow(w.handlings, w.broker, w.consumed, w.provider, w'.broker, w'.consumed, w'.provider);
    Moved(w', h, if fault.Clean? then Accepted else Failed);
  }

  lemma CommitKeeps(w: World, h: Id, fault: Fault)
    requires PipelineInv(w) && h in w.handlings && w.handlings[h].stage.Accepted?
    ensures PipelineInv(ConsumerStep(w, Commit(h, fault)))
  {
    var m := w.handlings[h].message;
    assert HandlingOk(w.handlings[h], w.broker, w.consumed, w.provider) && m in w.broker;
    var w' := if fault.NotDone? || m.event in w.consumed then w
              else w.(consumed := w.consumed + {m.event}, pending := w.pending - {m.delivery});
    HandlingsGrow(w.handlings, w.broker, w.consumed, w.provider, w'.broker, w'.consumed, w'.provider);
    Moved(w', h, if fault.Clean? then Succeeded else Failed);
  }

  lemma AckKeeps(w: World, h: Id)
    requires PipelineInv(w) && h in w.handlings && w.handlings[h].stage.Succeeded?
    ensures PipelineInv(ConsumerStep(w, Ack(h)))
  {
    assert HandlingOk(w.handlings[h], w.broker, w.consumed, w.provider);
    Moved(w.(acked := w.acked + {w.handlings[h].message}), h, Over);
  }

  lemma OtherKeeps(w: World, action: Action)
    requires PipelineInv(w) && (action.LookUp? || action.Load? || action.Nak? || action.Crash?)
    ensures PipelineInv(ConsumerStep(w, action))
  {
    if action.handling in w.handlings {
      var h := action.handling;
      assert HandlingOk(w.handlings[h], w.broker, w.consumed, w.provider);
      if ConsumerStep(w, action) != w { Moved(w, h, ConsumerStep(w, action).handlings[h].stage); }
    }
  }

  lemma FetchKeeps(w: World, action: Action)
    requires PipelineInv(w) && action.Fetch?
    ensures PipelineInv(ConsumerStep(w, action))
  {
  }

  lemma ConsumerKeeps(w: World, action: Action)
    requires PipelineInv(w)
    ensures PipelineInv(ConsumerStep(w, action))
  {
    match action
    case Send(h, fault) => if h in w.handlings && w.handlings[h].stage.Loaded? { SendKeeps(w, h, fault); }
    case Commit(h, fault) => if h in w.handlings && w.handlings[h].stage.Accepted? { CommitKeeps(w, h, fault); }
    case Ack(h) => if h in w.handlings && w.handlings[h].stage.Succeeded? { AckKeeps(w, h); }
    case Fetch(_, _, _) => FetchKeeps(w, action);
    case _ => if action.LookUp? || action.Load? || action.Nak? || action.Crash? { OtherKeeps(w, action); }
  }

  lemma StepKeeps(w: World, action: Action)
    requires PipelineInv(w)
    ensures PipelineInv(Apply(w, action))
  {
    if action.Tick? || action.Request? || action.Withdraw? { ServiceKeeps(w, action); }
    else if OfPublisher(action) { PublisherKeeps(w, action); }
    else { ConsumerKeeps(w, action); }
  }

  lemma {:induction false} RunKeeps(w: World, actions: seq<Action>)
    requires PipelineInv(w)
    ensures PipelineInv(Run(w, actions))
    decreases |actions|
  {
    if actions != [] {
      StepKeeps(w, actions[0]);
      RunKeeps(Apply(w, actions[0]), actions[1..]);
    }
  }

  // ----- claims -----

  /** A row is claimed exactly by a new claim whose reading finds it unpublished, due, and unclaimed or past its lease;
      then it is leased for thirty seconds and nothing else changes. */
  lemma ClaimsExactly(w: World, c: Id, e: Id, at: Time, w': World)
    requires w' == Apply(w, Claim(c, e, at)) && c !in w.claimings && e in w.outbox && at <= w.clock
    ensures c in w'.claimings <==>
            && !w.outbox[e].published && w.outbox[e].available <= at
            && (w.outbox[e].claimed.None? || w.outbox[e].claimed.value < at)
    ensures c !in w'.claimings ==> w' == w
    ensures c in w'.claimings ==>
              w' == w.(outbox := w.outbox[e := w.outbox[e].(claimed := Some(at + 30 * SECOND))],
                       claimings := w.claimings[c := Claiming(w.outbox[e].message, at, Claimed)])
  {
  }

  /** This step releases row e. */
  predicate Releases(w: World, action: Action, e: Id) {
    action.Release? && action.claiming in w.claimings && w.claimings[action.claiming].message.event == e
  }

  ghost predicate NeverReleased(w: World, actions: seq<Action>, e: Id)
    decreases |actions|
  {
    actions == [] || (!Releases(w, actions[0], e) && NeverReleased(Apply(w, actions[0]), actions[1..], e))
  }

  predicate Leased(w: World, e: Id, until: Time) {
    e in w.outbox && (w.outbox[e].published || (w.outbox[e].claimed.Some? && until <= w.outbox[e].claimed.value))
  }

  lemma LeaseStep(w: World, action: Action, e: Id, until: Time)
    requires PipelineInv(w) && Leased(w, e, until) && !Releases(w, action, e)
    ensures Leased(Apply(w, action), e, until)
  {
  }

  /** While nobody releases it, a leased row is not claimed again by any reading within the lease. */
  lemma {:induction false} LeaseHolds(w: World, actions: seq<Action>, e: Id, until: Time, c: Id, at: Time)
    requires PipelineInv(w) && Leased(w, e, until) && NeverReleased(w, actions, e) && at <= until
    ensures Apply(Run(w, actions), Claim(c, e, at)) == Run(w, actions)
    decreases |actions|
  {
    if actions != [] {
      LeaseStep(w, actions[0], e, until);
      StepKeeps(w, actions[0]);
      LeaseHolds(Apply(w, actions[0]), actions[1..], e, until, c, at);
    }
  }

  /** Such a run from the start: a second claim of the row within thirty seconds of the first changes nothing. */
  lemma OneClaimPerLease(before: seq<Action>, w: World, c: Id, e: Id, at: Time, actions: seq<Action>, d: Id,
                         again: Time)
    requires w == Apply(Run(START, before), Claim(c, e, at)) && c !in Run(START, before).claimings && c in w.claimings
    requires NeverReleased(w, actions, e) && again <= at + 30 * SECOND
    ensures Apply(Run(w, actions), Claim(d, e, again)) == Run(w, actions)
  {
    RunKeeps(START, before);
    StepKeeps(Run(START, before), Claim(c, e, at));
    LeaseHolds(w, actions, e, at + 30 * SECOND, d, again);
  }

  // ----- whole runs -----

  /** Under any redelivery, concurrency and crashes: an acked message has a consumed record, a consumed record implies
      that the provider accepted that delivery, and a row marked published reached the broker. */
  lemma AckedMeansDelivered(actions: seq<Action>, m: Message)
    ensures var w := Run(START, actions);
            && (m in w.acked ==> m.event in w.consumed)
            && (m in w.broker && m.event in w.consumed ==> m.delivery in w.provider)
            && (m.event in w.outbox && w.outbox[m.event].message == m && w.outbox[m.event].published ==> m in w.broker)
  {
    RunKeeps(START, actions);
  }

  /** No crash and no failed mark or release strands a row: while it is unpublished it can be claimed again at any
      time more than thirty-six seconds from now. */
  lemma NoRowIsStuck(actions: seq<Action>, e: Id, now: Time)
    requires e in Run(START, actions).outbox && !Run(START, actions).outbox[e].published
    requires now > Run(START, actions).clock + 36 * SECOND
    ensures Claimable(Run(START, actions).outbox[e], now)
  {
    RunKeeps(START, actions);
  }

  /** The provider holds one delivery for each identifier, and only what a service asked for. */
  ghost predicate SentInv(w: World) {
    && (forall d {:trigger d in w.sent} :: d in w.sent ==> d.id in w.provider && d in w.requested)
    && (forall d, e {:trigger d in w.sent, e in w.sent} :: d in w.sent && e in w.sent && d.id == e.id ==> d == e)
    && (forall x {:trigger w.pending[x]} ::
          x in w.pending ==> Delivery(x, w.pending[x].template, w.pending[x].token) in w.requested)
    && (forall h {:trigger w.handlings[h]} ::
          h in w.handlings && w.handlings[h].stage.Loaded? ==> w.handlings[h].stage.delivery in w.requested)
  }

  lemma PublisherSends(w: World, action: Action)
    requires SentInv(w)
    ensures SentInv(PublisherStep(w, action))
  {
  }

  lemma ConsumerSends(w: World, action: Action)
    requires SentInv(w)
    ensures SentInv(ConsumerStep(w, action))
  {
  }

  lemma StepSends(w: World, action: Action)
    requires SentInv(w)
    ensures SentInv(Apply(w, action))
  {
    if OfPublisher(action) { PublisherSends(w, action); }
    else if !action.Tick? && !action.Request? && !action.Withdraw? { ConsumerSends(w, action); }
  }

  lemma {:induction false} SendsRun(w: World, actions: seq<Action>)
    requires SentInv(w)
    ensures SentInv(Run(w, actions))
    decreases |actions|
  {
    if actions != [] {
      StepSends(w, actions[0]);
      SendsRun(Apply(w, actions[0]), actions[1..]);
    }
  }

  /** Whatever the provider accepted, a service asked for with that template and token, and an identifier is accepted
      with one content only. */
  lemma SentWasRequested(actions: seq<Action>, d: Delivery, e: Delivery)
    requires d in Run(START, actions).sent
    ensures d in Run(START, actions).requested && d.id in Run(START, actions).provider
    ensures e in Run(START, actions).sent && e.id == d.id ==> e == d
  {
    SendsRun(START, actions);
  }

  predicate Kept(x: World, y: World) {
    && x.consumed <= y.consumed && x.acked <= y.acked && x.provider <= y.provider && x.broker <= y.broker
    && (forall e {:trigger x.outbox[e]} {:trigger y.outbox[e]} :: e in x.outbox ==>
          e in y.outbox && y.outbox[e].message == x.outbox[e].message &&
          (x.outbox[e].published ==> y.outbox[e].published))
  }

  lemma StepProgress(w: World, action: Action)
    ensures Kept(w, Apply(w, action))
  {
  }

  /** Nothing published, received, consumed, acked or accepted is ever taken back. */
  lemma {:induction false} ProgressIsKept(w: World, actions: seq<Action>)
    ensures Kept(w, Run(w, actions))
    decreases |actions|
  {
    if actions != [] {
      StepProgress(w, actions[0]);
      ProgressIsKept(Apply(w, actions[0]), actions[1..]);
    }
  }

  lemma Clears(w: World, action: Action, d: Id)
    requires PipelineInv(w) && d in w.pending && d !in Apply(w, action).pending && action != Withdraw(d)
    ensures action.Commit? && action.handling in w.handlings
    ensures var m, w' := w.handlings[action.handling].message, Apply(w, action);
            m in w'.broker && m.delivery == d && m.event !in w.consumed && m.event in w'.consumed && d in w'.provider
  {
    assert HandlingOk(w.handlings[action.handling], w.broker, w.consumed, w.provider);
  }

  /** A pending delivery that disappears without its service withdrawing it belongs to a message of the broker that is
      consumed and whose delivery the provider accepted: workers clear ciphertext only after it was used. */
  lemma {:induction false} ClearedMeansDelivered(before: seq<Action>, actions: seq<Action>, d: Id) returns (m: Message)
    requires d in Run(START, before).pending && d !in Run(Run(START, before), actions).pending
    requires forall i {:trigger actions[i]} :: 0 <= i < |actions| ==> actions[i] != Withdraw(d)
    ensures var w := Run(Run(START, before), actions);
            m in w.broker && m.delivery == d && m.event in w.consumed && d in w.provider
  {
    RunKeeps(START, before);
    m := ClearedFrom(Run(START, before), actions, d);
  }

  lemma {:induction false} ClearedFrom(w: World, actions: seq<Action>, d: Id) returns (m: Message)
    requires PipelineInv(w) && d in w.pending && d !in Run(w, actions).pending
    requires forall i {:trigger actions[i]} :: 0 <= i < |actions| ==> actions[i] != Withdraw(d)
    ensures var w' := Run(w, actions); m in w'.broker && m.delivery == d && m.event in w'.consumed && d in w'.provider
    decreases |actions|
  {
    var w' := Apply(w, actions[0]);
    StepKeeps(w, actions[0]);
    if d in w'.pending {
      m := ClearedFrom(w', actions[1..], d);
    } else {
      Clears(w, actions[0], d);
      m := w.handlings[actions[0].handling].message;
      ProgressIsKept(w', actions[1..]);
    }
  }

  /** One turn of the publisher's loop is a publish step and a mark or a release. */
  lemma TurnsAreSteps(w: World, c: Id, answer: Answer, delay: Time)
    requires PipelineInv(w) && At(w, c, Claimed) && 8 * SECOND / 10 <= delay <= 36 * SECOND
    ensures var e, at, w1 := w.claimings[c].message.event, w.claimings[c].at, Apply(w,
                                                                                    Publish(c, PublishFault(answer)));
            var w2 := Apply(w1, if answer.Took? then MarkPublished(c, Done(answer.marked))
                                else Release(c, delay, Done(answer.released)));
            && e in w.outbox && e in w2.outbox && At(w2, c, Finished)
            && (w.outbox[e].published || RowAfter(w.outbox[e], answer, w2.outbox[e], at))
            && w2.broker == w.broker + if answer.Refused? then {} else {w.outbox[e].message}
  {
    assert InOutbox(w.outbox, w.claimings[c].message);
  }

  function PublishFault(answer: Answer): Fault {
    if answer.Took? then Clean else if answer.Refused? then NotDone else Unheard
  }

  function Done(success: bool): Fault { if success then Clean else NotDone }

  // ----- one consumer, statement by statement -----

  class EmailConsumer {
    const sender: LocalEmailSender
    var consumed: set<Id>
    var pending: map<Id, Pending>

    constructor (provider: LocalEmailSender)
      ensures sender == provider && consumed == {} && pending == map[]
    {
      sender, consumed, pending := provider, {}, map[];
    }

    // Consume: look up, load, send, then record and clear in one transaction
    method Consume(m: Message, at: Time, wellFormed: bool, storeFails: bool, commitFails: bool) returns (ok: bool)
      requires sender.Valid()
      modifies this, sender
      ensures sender.Valid()
      ensures ok <==> !storeFails && (m.event in old(consumed) ||
                        (m.delivery in old(pending) && old(pending)[m.delivery].template == m.template &&
                         at < old(pending)[m.delivery].expiresAt && m.delivery != 0 &&
                         (m.delivery in old(sender.accepted) || wellFormed) && !commitFails))
      ensures m.event in old(consumed) ==> sender.accepted == old(sender.accepted)
      ensures ok ==> m.event in consumed && (m.event in old(consumed) || m.delivery in sender.accepted)
      ensures consumed == if ok then old(consumed) + {m.event} else old(consumed)
      ensures pending == if ok && m.event !in old(consumed) then old(pending) - {m.delivery} else old(pending)
      ensures forall d :: d in sender.accepted && d !in old(sender.accepted) ==>
                && d == m.delivery && m.delivery in old(pending)
                && sender.accepted[d] == Delivery(m.delivery, m.template, old(pending)[m.delivery].token)
    {
      if storeFails { return false; }
      if m.event in consumed { return true; }
      if !Deliverable(pending, m, at) { return false; }
      var accepted := sender.Send(Delivery(m.delivery, m.template, pending[m.delivery].token), wellFormed);
      if !accepted || commitFails { return false; }
      consumed := consumed + {m.event};
      pending := pending - {m.delivery};
      ok := true;
    }
  }
}
