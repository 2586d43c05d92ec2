/** The bounded asynchronous error reporter: any number of producers, one closer and one worker, step by step. */
module Reporter {

  /** A valid report; its content plays no part here. */
  type Report = nat

  datatype Result = Sent | Dropped | ProviderFailed

  datatype Config = Config(capacity: nat, batchMax: nat)

  // The bounds New checks
  predicate ConfigValid(c: Config) { 10 <= c.capacity <= 1000 && 1 <= c.batchMax <= 100 && c.batchMax <= c.capacity }

  /** Where the worker stands between its atomic steps. */
  datatype Worker =
    | Waiting
    | Filling(batch: seq<Report>)
    | Checking(batch: seq<Report>, sawClosed: bool)
    | Delivering(batch: seq<Report>, sawClosed: bool)
    | Sending(batch: seq<Report>, sawClosed: bool)
    | Recording(batch: seq<Report>, done: nat, result: Result, sawClosed: bool)
    | Finished

  /** A producer inside TryReport holds the read lock, from the check of `accepting` to its return. */
  datatype Producer = Entered(report: Report) | Permitted(report: Report) | Leaving

  /** The one closer holds the write lock while it is Locked, Refusing or QueueClosed. */
  datatype Closer = Idle | Locked | Refusing | QueueClosed | Gone

  datatype State = State(
    queue: seq<Report>, open: bool, accepting: bool, cancelled: bool, worker: Worker, producers: map<nat, Producer>,
      closer: Closer,
    accepted: seq<Report>,                // every report TryReport returned true for, in order
    recorded: seq<(Report, Result)>,      // what the worker told the observer, in order
    refused: seq<Report>,                 // reports dropped because the queue was full
    handed: seq<seq<Report>>,             // batches handed to deliver, in order
    sent: seq<seq<Report>>,               // those of them that reached the provider, in order
    answers: seq<(seq<Report>, Reply)>,   // what became of each batch, in order
    panicked: bool)                       // a send on a closed channel, or a second close

  /** A batch is kept back by a cancelled reporter, or the provider accepts it or fails, before or after cancellation.
      */
  datatype Reply = KeptBack | Accepted | Failed(cancelled: bool)

  const START := State([], true, true, false, Waiting, map[], Idle, [], [], [], [], [], [], false)

  datatype Step =
    | Enter(id: nat, report: Report) | Permit(id: nat) | Offer(id: nat) | Leave(id: nat)
    | Lock | StopAccepting | CloseQueue | Unlock
    | Cancel
    | Receive | Fill | Check | Deliver | Answer(failed: bool) | Record

  predicate WriteLocked(closer: Closer) { closer.Locked? || closer.Refusing? || closer.QueueClosed? }

  // TryReport, statement by statement; a step that is not the producer's next one changes nothing
  function Produce(s: State, c: Config, step: Step): State {
    match step
    case Enter(id, r) => if id in s.producers || WriteLocked(s.closer) then s
      else s.(producers := s.producers[id := Entered(r)])
    case Permit(id) =>
      if id in s.producers && s.producers[id].Entered?
      then s.(producers := s.producers[id := if s.accepting then Permitted(s.producers[id].report) else Leaving]) else s
    case Offer(id) =>
      if !(id in s.producers && s.producers[id].Permitted?) then s else
        var s', r := s.(producers := s.producers[id := Leaving]), s.producers[id].report;
        if !s.open then s'.(panicked := true)
        else if |s.queue| < c.capacity then s'.(queue := s.queue + [r], accepted := s.accepted + [r])
        else s'.(refused := s.refused + [r])
    case Leave(id) => if id in s.producers && s.producers[id].Leaving? then s.(producers := s.producers - {id}) else s
    case _ => s
  }

  // The one execution of Close's critical section
  function Shut(s: State, step: Step): State {
    match (s.closer, step)
    case (Idle, Lock) => if s.producers == map[] then s.(closer := Locked) else s
    case (Locked, StopAccepting) => s.(closer := Refusing, accepting := false)
    case (Refusing, CloseQueue) => s.(closer := QueueClosed, open := false, panicked := s.panicked || !s.open)
    case (QueueClosed, Unlock) => s.(closer := Gone)
    case _ => s
  }

  // One turn of run and deliver; a step that is not the worker's next one changes nothing
  function Work(s: State, c: Config, step: Step): State {
    match (s.worker, step)
    case (Waiting, Receive) =>
      if s.queue != [] then s.(queue := s.queue[1..], worker := Filling([s.queue[0]]))
      else if !s.open then s.(worker := Finished) else s
    case (Filling(b), Fill) =>
      if |b| >= c.batchMax then s.(worker := Delivering(b, false))
      else if s.queue != [] then s.(queue := s.queue[1..], worker := Checking(b + [s.queue[0]], false))
      else s.(worker := Checking(b, !s.open))
    case (Checking(b, closed), Check) =>
      if closed || |b| == c.batchMax || s.queue == [] then s.(worker := Delivering(b, closed))
      else s.(worker := Filling(b))
    case (Delivering(b, closed), Deliver) =>
      if s.cancelled then s.(worker := Recording(b, 0, Dropped, closed), handed := s.handed + [b],
                             answers := s.answers + [(b, KeptBack)])
      else s.(worker := Sending(b, closed), handed := s.handed + [b], sent := s.sent + [b])
    case (Sending(b, closed), Answer(failed)) =>
      s.(worker := Recording(b, 0, if !failed then Sent else if s.cancelled then Dropped else ProviderFailed, closed),
         answers := s.answers + [(b, if failed then Failed(s.cancelled) else Accepted)])
    case (Recording(b, done, result, closed), Record) =>
      if done < |b| then s.(worker := Recording(b, done + 1, result, closed), recorded :=
                            s.recorded + [(b[done], result)])
      else s.(worker := if closed then Finished else Waiting)
    case _ => s
  }

  function Apply(s: State, c: Config, step: Step): State {
    match step
    case Enter(_, _) => Produce(s, c, step)
    case Permit(_) => Produce(s, c, step)
    case Offer(_) => Produce(s, c, step)
    case Leave(_) => Produce(s, c, step)
    case Lock => Shut(s, step)
    case StopAccepting => Shut(s, step)
    case CloseQueue => Shut(s, step)
    case Unlock => Shut(s, step)
    case Cancel => s.(cancelled := true)
    case _ => Work(s, c, step)
  }

  function Run(s: State, c: Config, steps: seq<Step>): State
    decreases |steps|
  {
    if steps == [] then s else Run(Apply(s, c, steps[0]), c, steps[1..])
  }

  // ----- conservation -----

  function Reports(recorded: seq<(Report, Result)>): (r: seq<Report>)
    ensures |r| == |recorded|
  {
    if recorded == [] then [] else Reports(recorded[..|recorded| - 1]) + [recorded[|recorded| - 1].0]
  }

  function Flatten(batches: seq<seq<Report>>): seq<Report> {
    if batches == [] then [] else Flatten(batches[..|batches| - 1]) + batches[|batches| - 1]
  }

  /** Received and not yet recorded. */
  function InBatch(w: Worker): seq<Report> {
    if w.Waiting? || w.Finished? then [] else if w.Recording?
    then (if w.done <= |w.batch| then w.batch[w.done..] else []) else w.batch
  }

  /** Received and not yet handed to deliver. */
  function Unhanded(w: Worker): seq<Report> { if w.Filling? || w.Checking? || w.Delivering? then w.batch else [] }

  predicate WorkerOk(s: State, c: Config) {
    match s.worker
    case Waiting => true
    case Filling(b) => 1 <= |b| <= c.batchMax
    case Checking(b, closed) => 1 <= |b| <= c.batchMax && (closed ==> s.queue == [] && !s.open)
    case Delivering(b, closed) => 1 <= |b| <= c.batchMax && (closed ==> s.queue == [] && !s.open)
    case Sending(b, closed) => 1 <= |b| <= c.batchMax && (closed ==> s.queue == [] && !s.open)
    case Recording(b, done, _, closed) => 1 <= |b| <= c.batchMax && done <= |b| && (closed ==> s.queue == [] && !s.open)
    case Finished => s.queue == [] && !s.open
  }

  /** The write lock excludes producers, and a producer that was permitted finds the queue open. */
  ghost predicate Guarded(s: State) {
    && (s.accepting <==> s.closer.Idle? || s.closer.Locked?)
    && (s.open <==> s.closer.Idle? || s.closer.Locked? || s.closer.Refusing?)
    && (WriteLocked(s.closer) ==> s.producers == map[])
    && (forall id {:trigger s.producers[id]} :: id in s.producers && s.producers[id].Permitted? ==> s.accepting)
  }

  /** Accepted reports are, in order, those recorded, those in the batch and those queued; batches are consecutive
      runs of them. */
  ghost predicate Conserved(s: State, c: Config) {
    && s.accepted == Reports(s.recorded) + InBatch(s.worker) + s.queue
    && s.accepted == Flatten(s.handed) + Unhanded(s.worker) + s.queue
    && |s.queue| <= c.capacity && !s.panicked && Guarded(s) && WorkerOk(s, c)
    && (forall i {:trigger s.handed[i]} :: 0 <= i < |s.handed| ==> 1 <= |s.handed[i]| <= c.batchMax)
    && s.sent <= s.handed && (!s.cancelled ==> s.sent == s.handed)
  }

  lemma OfferConserves(s: State, c: Config, id: nat, s': State)
    requires Conserved(s, c) && id in s.producers && s.producers[id].Permitted? && s' == Produce(s, c, Offer(id))
    ensures Conserved(s', c)
  {
    var r := s.producers[id].report;
    AddOne(Reports(s.recorded), InBatch(s.worker), s.queue, r);
    AddOne(Flatten(s.handed), Unhanded(s.worker), s.queue, r);
    assert s'.handed == s.handed && s'.recorded == s.recorded && s'.worker == s.worker;
    assert Guarded(s');
  }

  lemma ProduceConserves(s: State, c: Config, step: Step)
    requires Conserved(s, c)
    ensures Conserved(Produce(s, c, step), c)
  {
    if step.Offer? {
      if step.id in s.producers && s.producers[step.id].Permitted? {
        OfferConserves(s, c, step.id, Produce(s, c, step));
      }
    } else {
      var s' := Produce(s, c, step);
      assert s' == s.(producers := s'.producers);
      assert Guarded(s');
    }
  }

  lemma ShutConserves(s: State, c: Config, step: Step)
    requires Conserved(s, c)
    ensures Conserved(Shut(s, step), c)
  {
  }

  lemma AddOne(a: seq<Report>, b: seq<Report>, queue: seq<Report>, r: Report)
    ensures a + b + queue + [r] == a + b + (queue + [r])
  {
  }

  lemma MoveOne(a: seq<Report>, b: seq<Report>, queue: seq<Report>)
    requires queue != []
    ensures a + b + queue == a + (b + [queue[0]]) + queue[1..]
  {
    assert queue == [queue[0]] + queue[1..];
  }

  lemma HandOne(handed: seq<seq<Report>>, batch: seq<Report>)
    ensures Flatten(handed) + batch == Flatten(handed + [batch]) + []
  {
    assert (handed + [batch])[..|handed|] == handed;
  }

  lemma RecordOne(recorded: seq<(Report, Result)>, batch: seq<Report>, done: nat, result: Result, queue: seq<Report>)
    requires done < |batch|
    ensures Reports(recorded) + batch[done..] + queue ==
            Reports(recorded + [(batch[done], result)]) + batch[done + 1..] + queue
  {
    var more := recorded + [(batch[done], result)];
    assert more[..|more| - 1] == recorded;
    assert batch[done..] == [batch[done]] + batch[done + 1..];
  }

  lemma MoveFirst(a: seq<Report>, queue: seq<Report>)
    requires queue != []
    ensures a + [] + queue == a + [queue[0]] + queue[1..]
  {
    assert queue == [queue[0]] + queue[1..];
  }

  lemma ReceiveConserves(s: State, c: Config)
    requires Conserved(s, c) && ConfigValid(c) && s.worker.Waiting?
    ensures Conserved(Work(s, c, Receive), c)
  {
    if s.queue != [] {
      var s' := s.(queue := s.queue[1..], worker := Filling([s.queue[0]]));
      MoveFirst(Reports(s.recorded), s.queue);
      MoveFirst(Flatten(s.handed), s.queue);
      assert s'.accepted == Reports(s'.recorded) + InBatch(s'.worker) + s'.queue;
      assert s'.accepted == Flatten(s'.handed) + Unhanded(s'.worker) + s'.queue;
    }
  }

  lemma FillConserves(s: State, c: Config)
    requires Conserved(s, c) && s.worker.Filling?
    ensures Conserved(Work(s, c, Fill), c)
  {
    var b := s.worker.batch;
    if |b| < c.batchMax && s.queue != [] {
      var s' := s.(queue := s.queue[1..], worker := Checking(b + [s.queue[0]], false));
      MoveOne(Reports(s.recorded), b, s.queue);
      MoveOne(Flatten(s.handed), b, s.queue);
      assert s'.accepted == Reports(s'.recorded) + InBatch(s'.worker) + s'.queue;
      assert s'.accepted == Flatten(s'.handed) + Unhanded(s'.worker) + s'.queue;
    }
  }

  lemma DeliverConserves(s: State, c: Config)
    requires Conserved(s, c) && s.worker.Delivering?
    ensures Conserved(Work(s, c, Deliver), c)
  {
    var s' := Work(s, c, Deliver);
    HandOne(s.handed, s.worker.batch);
    assert s.worker.batch[0..] == s.worker.batch;
    assert InBatch(s'.worker) == s.worker.batch && Unhanded(s'.worker) == [];
  }

  lemma AnswerConserves(s: State, c: Config, failed: bool)
    requires Conserved(s, c) && s.worker.Sending?
    ensures Conserved(Work(s, c, Answer(failed)), c)
  {
    var s' := Work(s, c, Answer(failed));
    assert s.worker.batch[0..] == s.worker.batch;
    assert InBatch(s'.worker) == s.worker.batch && Unhanded(s'.worker) == [];
  }

  lemma RecordConserves(s: State, c: Config)
    requires Conserved(s, c) && s.worker.Recording? && s.worker.done < |s.worker.batch|
    ensures Conserved(Work(s, c, Record), c)
  {
    var w := s.worker;
    var s' := s.(worker := Recording(w.batch, w.done + 1, w.result, w.sawClosed), recorded :=
                 s.recorded + [(w.batch[w.done], w.result)]);
    assert s' == Work(s, c, Record);
    RecordOne(s.recorded, w.batch, w.done, w.result, s.queue);
    assert s'.accepted == Reports(s'.recorded) + InBatch(s'.worker) + s'.queue;
  }

  lemma RecordedAllConserves(s: State, c: Config)
    requires Conserved(s, c) && s.worker.Recording? && s.worker.done == |s.worker.batch|
    ensures Conserved(Work(s, c, Record), c)
  {
    assert InBatch(s.worker) == [];
  }

  lemma CheckConserves(s: State, c: Config)
    requires Conserved(s, c) && s.worker.Checking?
    ensures Conserved(Work(s, c, Check), c)
  {
    var s' := Work(s, c, Check);
    assert s' == s.(worker := s'.worker) && InBatch(s'.worker) == InBatch(s.worker);
    assert Unhanded(s'.worker) == Unhanded(s.worker) && Guarded(s');
  }

  lemma WorkConserves(s: State, c: Config, step: Step)
    requires Conserved(s, c) && ConfigValid(c)
    ensures Conserved(Work(s, c, step), c)
  {
    if s.worker.Waiting? && step.Receive? { ReceiveConserves(s, c); }
    else if s.worker.Filling? && step.Fill? { FillConserves(s, c); }
    else if s.worker.Checking? && step.Check? { CheckConserves(s, c); }
    else if s.worker.Delivering? && step.Deliver? { DeliverConserves(s, c); }
    else if s.worker.Sending? && step.Answer? { AnswerConserves(s, c, step.failed); }
    else if s.worker.Recording? && step.Record? {
      if s.worker.done < |s.worker.batch| { RecordConserves(s, c); } else { RecordedAllConserves(s, c); }
    } else {
      assert Work(s, c, step) == s;
    }
  }

  lemma StepConserves(s: State, c: Config, step: Step)
    requires Conserved(s, c) && ConfigValid(c)
    ensures Conserved(Apply(s, c, step), c)
  {
    if step.Enter? || step.Permit? || step.Offer? || step.Leave? { ProduceConserves(s, c, step); }
    else if step.Lock? || step.StopAccepting? || step.CloseQueue? || step.Unlock? { ShutConserves(s, c, step); }
    else if !step.Cancel? { WorkConserves(s, c, step); }
  }

  lemma {:induction false} RunConserves(s: State, c: Config, steps: seq<Step>)
    requires Conserved(s, c) && ConfigValid(c)
    ensures Conserved(Run(s, c, steps), c)
    decreases |steps|
  {
    if steps != [] {
      StepConserves(s, c, steps[0]);
      RunConserves(Apply(s, c, steps[0]), c, steps[1..]);
    }
  }

  // ----- results -----

  /** What the observer is told of a report of a batch with this reply. */
  function ResultOf(reply: Reply): Result {
    match reply
    case Accepted => Sent
    case KeptBack => Dropped
    case Failed(cancelled) => if cancelled then Dropped else ProviderFailed
  }

  function Expected(answers: seq<(seq<Report>, Reply)>): seq<(Report, Result)> {
    if answers == [] then [] else
      var last := answers[|answers| - 1];
      Expected(answers[..|answers| - 1]) + Results(last.0, ResultOf(last.1))
  }

  /** Recorded so far, and what the worker is about to record. */
  function Remaining(w: Worker): seq<(Report, Result)> {
    if w.Recording? && w.done <= |w.batch| then Results(w.batch, w.result)[w.done..] else []
  }

  ghost predicate OnlyCancelled(answers: seq<(seq<Report>, Reply)>, cancelled: bool) {
    forall i {:trigger answers[i]} :: 0 <= i < |answers| ==>
      (answers[i].1 == KeptBack || answers[i].1 == Failed(true) ==> cancelled)
  }

  ghost predicate Told(s: State) {
    s.recorded + Remaining(s.worker) == Expected(s.answers) && OnlyCancelled(s.answers, s.cancelled)
  }

  lemma OneMoreAnswer(recorded: seq<(Report, Result)>, answers: seq<(seq<Report>, Reply)>, batch: seq<Report>,
                      reply: Reply, closed: bool)
    requires recorded == Expected(answers)
    ensures recorded + Remaining(Recording(batch, 0, ResultOf(reply), closed)) == Expected(answers + [(batch, reply)])
  {
    assert (answers + [(batch, reply)])[..|answers|] == answers;
    assert Results(batch, ResultOf(reply))[0..] == Results(batch, ResultOf(reply));
  }

  lemma OneMoreRecord(recorded: seq<(Report, Result)>, w: Worker)
    requires w.Recording? && w.done < |w.batch|
    ensures recorded + Remaining(w) ==
            recorded + [(w.batch[w.done], w.result)] + Remaining(w.(done := w.done + 1))
  {
    var results := Results(w.batch, w.result);
    assert results[w.done..] == [results[w.done]] + results[w.done + 1..];
  }

  /** The worker starts to record the results of one more batch. */
  lemma BatchTells(s: State, batch: seq<Report>, reply: Reply, closed: bool, s': State)
    requires Told(s) && !s.worker.Recording? && s'.recorded == s.recorded && s'.answers == s.answers + [(batch, reply)]
    requires s'.worker == Recording(batch, 0, ResultOf(reply), closed) && s'.cancelled == s.cancelled
    requires reply == KeptBack || reply == Failed(true) ==> s.cancelled
    ensures Told(s')
  {
    assert s.recorded + [] == s.recorded;
    OneMoreAnswer(s.recorded, s.answers, batch, reply, closed);
  }

  lemma DeliverTells(s: State, c: Config, s': State)
    requires Told(s) && s.worker.Delivering? && s' == Work(s, c, Deliver)
    ensures Told(s')
  {
    if s.cancelled { BatchTells(s, s.worker.batch, KeptBack, s.worker.sawClosed, s'); } else { TellsTheSame(s, s'); }
  }

  lemma AnswerTells(s: State, c: Config, failed: bool, s': State)
    requires Told(s) && s.worker.Sending? && s' == Work(s, c, Answer(failed))
    ensures Told(s')
  {
    BatchTells(s, s.worker.batch, if failed then Failed(s.cancelled) else Accepted, s.worker.sawClosed, s');
  }

  lemma RecordTells(s: State, c: Config, s': State)
    requires Told(s) && s.worker.Recording? && s.worker.done <= |s.worker.batch| && s' == Work(s, c, Record)
    ensures Told(s')
  {
    if s.worker.done < |s.worker.batch| {
      OneMoreRecord(s.recorded, s.worker);
    } else {
      assert Remaining(s.worker) == [] && Remaining(s'.worker) == [];
    }
  }

  predicate SameTold(s: State, s': State) {
    && s'.recorded == s.recorded && s'.answers == s.answers && (s.cancelled ==> s'.cancelled)
    && (s'.worker == s.worker || (!s'.worker.Recording? && !s.worker.Recording?))
  }

  lemma TellsTheSame(s: State, s': State)
    requires Told(s) && SameTold(s, s')
    ensures Told(s')
  {
    assert Remaining(s'.worker) == Remaining(s.worker);
  }

  lemma ProduceTells(s: State, c: Config, step: Step)
    ensures SameTold(s, Produce(s, c, step)) && SameTold(s, Shut(s, step))
  {
  }

  lemma WorkTells(s: State, c: Config, step: Step)
    requires !(s.worker.Delivering? && step.Deliver?) && !(s.worker.Sending? && step.Answer?)
    requires !(s.worker.Recording? && step.Record?)
    ensures SameTold(s, Work(s, c, step))
  {
  }

  lemma OthersTell(s: State, c: Config, step: Step, s': State)
    requires Told(s) && s' == Apply(s, c, step)
    requires !(s.worker.Delivering? && step.Deliver?) && !(s.worker.Sending? && step.Answer?)
    requires !(s.worker.Recording? && step.Record?)
    ensures Told(s')
  {
    ProduceTells(s, c, step);
    WorkTells(s, c, step);
    assert SameTold(s, s');
    TellsTheSame(s, s');
  }

  lemma StepTells(s: State, c: Config, step: Step, s': State)
    requires Told(s) && WorkerOk(s, c) && s' == Apply(s, c, step)
    ensures Told(s')
  {
    if s.worker.Delivering? && step.Deliver? { DeliverTells(s, c, s'); }
    else if s.worker.Sending? && step.Answer? { AnswerTells(s, c, step.failed, s'); }
    else if s.worker.Recording? && step.Record? { RecordTells(s, c, s'); }
    else { OthersTell(s, c, step, s'); }
  }

  lemma {:induction false} RunTells(s: State, c: Config, steps: seq<Step>)
    requires Told(s) && Conserved(s, c) && ConfigValid(c)
    ensures Told(Run(s, c, steps))
    decreases |steps|
  {
    if steps != [] {
      StepConserves(s, c, steps[0]);
      StepTells(s, c, steps[0], Apply(s, c, steps[0]));
      RunTells(Apply(s, c, steps[0]), c, steps[1..]);
    }
  }

  // ----- main results -----

  /** In every interleaving nothing is ever sent on the closed queue and it is closed once, and accepted reports are
      exactly those recorded, in the batch or queued. */
  lemma NothingIsLost(c: Config, steps: seq<Step>)
    requires ConfigValid(c)
    ensures var s := Run(START, c, steps);
            && !s.panicked && |s.queue| <= c.capacity
            && s.accepted == Reports(s.recorded) + InBatch(s.worker) + s.queue
  {
    RunConserves(START, c, steps);
  }

  /** Batches are runs of 1 to batchMax accepted reports, first in first out, and the provider saw an initial run of
      them, all of them unless the reporter was cancelled. */
  lemma BatchesAreRuns(c: Config, steps: seq<Step>)
    requires ConfigValid(c)
    ensures var s := Run(START, c, steps);
            && Flatten(s.handed) <= s.accepted
            && (forall i :: 0 <= i < |s.handed| ==> 1 <= |s.handed[i]| <= c.batchMax)
            && s.sent <= s.handed && (!s.cancelled ==> s.sent == s.handed)
  {
    RunConserves(START, c, steps);
    var s := Run(START, c, steps);
    assert Flatten(s.handed) + Unhanded(s.worker) + s.queue == Flatten(s.handed) + (Unhanded(s.worker) + s.queue);
  }

  /** The observer is told, in order, exactly what became of every batch: sent if the provider accepted it, failed if it
      failed before cancellation, dropped otherwise; and nothing is dropped before cancellation. */
  lemma ResultsAreTrue(c: Config, steps: seq<Step>)
    requires ConfigValid(c)
    ensures var s := Run(START, c, steps);
            && s.recorded + Remaining(s.worker) == Expected(s.answers)
            && (forall i :: 0 <= i < |s.answers| ==>
                  (s.answers[i].1 == KeptBack || s.answers[i].1 == Failed(true) ==> s.cancelled))
  {
    RunTells(START, c, steps);
  }

  /** When the worker has finished, every accepted report has exactly one recorded result, in the order of acceptance.
      */
  lemma FinishedRecordsEverything(c: Config, steps: seq<Step>)
    requires ConfigValid(c) && Run(START, c, steps).worker.Finished?
    ensures Reports(Run(START, c, steps).recorded) == Run(START, c, steps).accepted
  {
    RunConserves(START, c, steps);
  }

  // ----- the reporter as an object, between two steps of anyone else -----

  function Results(batch: seq<Report>, result: Result): (r: seq<(Report, Result)>)
    ensures |r| == |batch| && forall i :: 0 <= i < |batch| ==> r[i] == (batch[i], result)
  {
    seq(|batch|, i requires 0 <= i < |batch| => (batch[i], result))
  }

  lemma {:induction false} ReportsAppend(a: seq<(Report, Result)>, b: seq<(Report, Result)>)
    ensures Reports(a + b) == Reports(a) + Reports(b)
    decreases |b|
  {
    if b == [] {
      assert a + b == a && Reports(b) == [];
    } else {
      assert (a + b)[..|a + b| - 1] == a + b[..|b| - 1];
      ReportsAppend(a, b[..|b| - 1]);
    }
  }

  lemma {:induction false} ReportsOfResults(batch: seq<Report>, result: Result)
    ensures Reports(Results(batch, result)) == batch
    decreases |batch|
  {
    if batch != [] {
      var front := batch[..|batch| - 1];
      assert Results(batch, result)[..|batch| - 1] == Results(front, result);
      ReportsOfResults(front, result);
    }
  }

  class AsyncReporter {
    const config: Config
    var queue: seq<Report>
    var accepting: bool
    var closed: bool
    var recorded: seq<(Report, Result)>

    ghost predicate Valid()
      reads this
    {
      ConfigValid(config) && |queue| <= config.capacity && accepting == !closed
    }

    constructor (c: Config)
      requires ConfigValid(c)
      ensures Valid() && config == c && queue == [] && !closed && recorded == []
    {
      config, queue, accepting, closed, recorded := c, [], true, false, [];
    }

    method TryReport(r: Report) returns (taken: bool)
      requires Valid()
      modifies this
      ensures Valid() && closed == old(closed)
      ensures taken == (old(accepting) && |old(queue)| < config.capacity)
      ensures queue == if taken then old(queue) + [r] else old(queue)
      ensures recorded == if old(accepting) && !taken then old(recorded) + [(r, Dropped)] else old(recorded)
    {
      if !accepting { return false; }
      taken := |queue| < config.capacity;
      if taken { queue := queue + [r]; } else { recorded := recorded + [(r, Dropped)]; }
    }

    method Close()
      requires Valid()
      modifies this
      ensures Valid() && closed && queue == old(queue) && recorded == old(recorded)
    {
      accepting, closed := false, true;
    }

    // run, from the first receive to the delivery
    method Collect() returns (batch: seq<Report>, sawClosed: bool)
      requires Valid() && queue != []
      modifies this`queue
      ensures Valid() && old(queue) == batch + queue && 1 <= |batch| <= config.batchMax
      ensures |batch| == config.batchMax || queue == []
      ensures sawClosed ==> closed && queue == []
    {
      batch, sawClosed := [queue[0]], false;
      queue := queue[1..];
      var filling := true;
      while filling && |batch| < config.batchMax
        invariant Valid() && old(queue) == batch + queue && 1 <= |batch| <= config.batchMax
        invariant !filling ==> |batch| == config.batchMax || queue == []
        invariant sawClosed ==> closed && queue == []
        decreases if filling then 1 else 0, config.batchMax - |batch|
      {
        if queue != [] {
          MoveOne([], batch, queue);
          batch, queue := batch + [queue[0]], queue[1..];
        } else {
          sawClosed := closed;
        }
        filling := !(sawClosed || |batch| == config.batchMax || |queue| == 0);
      }
    }

    // deliver: one result for every report of the batch
    method Deliver(batch: seq<Report>, cancelled: bool, failed: bool, cancelledMeanwhile: bool) returns (result: Result)
      requires Valid()
      modifies this`recorded
      ensures Valid() && recorded == old(recorded) + Results(batch, result)
      ensures result == if cancelled then Dropped else if !failed then Sent else if cancelledMeanwhile then Dropped
              else ProviderFailed
    {
      result := if cancelled then Dropped else if !failed then Sent else if cancelledMeanwhile then Dropped
        else ProviderFailed;
      var i := 0;
      while i < |batch|
        invariant 0 <= i <= |batch| && recorded == old(recorded) + Results(batch, result)[..i]
      {
        recorded := recorded + [(batch[i], result)];
        i := i + 1;
      }
    }

    // run on a closed queue: the last turns of the worker
    method Drain(cancelled: bool, failing: seq<bool>)
      requires Valid() && closed
      modifies this`queue, this`recorded
      ensures Valid() && queue == [] && Reports(recorded) == Reports(old(recorded)) + old(queue)
    {
      var turn := 0;
      while queue != []
        invariant Valid() && Reports(recorded) + queue == Reports(old(recorded)) + old(queue)
        decreases |queue|
      {
        ghost var before, waiting := recorded, queue;
        var batch, sawClosed := Collect();
        var failed := turn < |failing| && failing[turn];
        var result := Deliver(batch, cancelled, failed, false);
        ReportsAppend(before, Results(batch, result));
        ReportsOfResults(batch, result);
        assert Reports(before) + batch + queue == Reports(before) + (batch + queue);
        turn := turn + 1;
        if sawClosed { return; }
      }
    }
  }
}
