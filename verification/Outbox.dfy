/** The transactional outbox and its publisher: claims with a lease, the broker's answers, marks and releases. */
module Outbox {
  import opened Schema

  datatype Template = VerifyEmail | ResetPassword

  /** A delivery event; its payload names one delivery and its template. */
  datatype Message = Message(event: Id, delivery: Id, template: Template)

  datatype Row = Row(message: Message, published: bool, available: Time, claimed: Option<Time>)

  const LEASE: Time := 30 * SECOND

  /** The condition of ClaimOutboxBatch. */
  predicate Claimable(row: Row, now: Time) {
    !row.published && row.available <= now && (row.claimed.Some? ==> row.claimed.value < now)
  }

  /** What becomes of a claimed row: taken by the broker and marked or not; or refused, or taken without the publisher
      learning it, and then released or not.  A row that does not validate counts as refused. */
  datatype Answer = Took(marked: bool) | Refused(released: bool) | Lost(released: bool)

  predicate RowAfter(row: Row, answer: Answer, after: Row, now: Time) {
    match answer
    case Took(marked) => after == if marked then row.(published := true, claimed := None) else row
    case _ =>
      if !answer.released || row.published then after == row
      else
        && after == row.(claimed := None, available := after.available)
        && now + 8 * SECOND / 10 <= after.available <= now + 36 * SECOND
  }

  ghost predicate Handled(before: map<Id, Row>, outbox: map<Id, Row>, done: set<Id>, answers: map<Id, Answer>,
                          now: Time) {
    && outbox.Keys == before.Keys
    && (forall e {:trigger outbox[e]} :: e in outbox && e !in done ==> outbox[e] == before[e])
    && (forall e {:trigger outbox[e]} ::
          e in outbox && e in done && e in answers ==> RowAfter(before[e], answers[e], outbox[e], now))
  }

  /** The messages that reach the broker. */
  function TakenFrom(rows: map<Id, Row>, done: set<Id>, answers: map<Id, Answer>): set<Message> {
    set e | e in done && e in rows && e in answers && !answers[e].Refused? :: rows[e].message
  }

  class Publisher {
    var outbox: map<Id, Row>
    var broker: set<Message>

    constructor (rows: map<Id, Row>)
      ensures outbox == rows && broker == {}
    {
      outbox, broker := rows, {};
    }

    // PublishAvailable, one turn of its loop
    method PublishOne(e: Id, answer: Answer, sample: Option<nat>, attempts: int, now: Time)
      requires e in outbox
      modifies this
      ensures outbox.Keys == old(outbox).Keys && (forall d :: d in outbox && d != e ==> outbox[d] == old(outbox)[d])
      ensures RowAfter(old(outbox)[e], answer, outbox[e], now)
      ensures broker == old(broker) + if answer.Refused? then {} else {old(outbox)[e].message}
    {
      if !answer.Refused? { broker := broker + {outbox[e].message}; }
      if answer.Took? {
        if answer.marked { outbox := outbox[e := outbox[e].(published := true, claimed := None)]; }
        return;
      }
      var delay := ReleaseDelay(attempts, sample);
      if answer.released && !outbox[e].published {
        outbox := outbox[e := outbox[e].(claimed := None, available := now + delay)];
      }
    }

    // PublishAvailable over the claimed rows
    method PublishAvailable(claimed: seq<Id>, answers: map<Id, Answer>, samples: seq<Option<nat>>, attempts: seq<int>,
                            now: Time)
      returns (processed: nat)
      requires |samples| == |attempts| == |claimed| && NoRepeats(claimed)
      requires forall e :: e in claimed ==> e in outbox && e in answers
      modifies this
      ensures Handled(old(outbox), outbox, Elements(claimed), answers, now)
      ensures broker == old(broker) + TakenFrom(old(outbox), Elements(claimed), answers)
      ensures processed == Count(claimed, set e | e in answers && answers[e] == Took(true))
    {
      processed := 0;
      var i := 0;
      ghost var before, marked := outbox, set e | e in answers && answers[e] == Took(true);
      assert claimed[..0] == [];
      while i < |claimed|
        invariant 0 <= i <= |claimed|
        invariant Handled(before, outbox, Elements(claimed[..i]), answers, now)
        invariant broker == old(broker) + TakenFrom(before, Elements(claimed[..i]), answers)
        invariant processed == Count(claimed[..i], marked)
      {
        OneMore(claimed, i, marked);
        OneMoreTaken(before, claimed, i, answers);
        PublishOne(claimed[i], answers[claimed[i]], samples[i], attempts[i], now);
        if answers[claimed[i]] == Took(true) { processed := processed + 1; }
        i := i + 1;
      }
      assert claimed[..i] == claimed;
    }
  }

  ghost predicate NoRepeats(s: seq<Id>) { forall i, j {:trigger s[i], s[j]} :: 0 <= i < j < |s| ==> s[i] != s[j] }

  function Elements(s: seq<Id>): set<Id> { set e | e in s }

  /** How many of the identifiers are in `which`. */
  function Count(s: seq<Id>, which: set<Id>): nat {
    if s == [] then 0 else Count(s[..|s| - 1], which) + if s[|s| - 1] in which then 1 else 0
  }

  lemma OneMore(s: seq<Id>, i: nat, which: set<Id>)
    requires i < |s| && NoRepeats(s)
    ensures Elements(s[..i + 1]) == Elements(s[..i]) + {s[i]} && s[i] !in Elements(s[..i])
    ensures Count(s[..i + 1], which) == Count(s[..i], which) + if s[i] in which then 1 else 0
  {
    assert s[..i + 1] == s[..i] + [s[i]] && s[..i + 1][..i] == s[..i];
  }

  lemma OneMoreTaken(rows: map<Id, Row>, s: seq<Id>, i: nat, answers: map<Id, Answer>)
    requires i < |s| && NoRepeats(s) && s[i] in rows && s[i] in answers
    ensures TakenFrom(rows, Elements(s[..i + 1]), answers) ==
            TakenFrom(rows, Elements(s[..i]), answers) + if answers[s[i]].Refused? then {} else {rows[s[i]].message}
  {
    OneMore(s, i, {});
  }

  // ----- publisher retries -----

  const MINIMUM_DELAY: Time := SECOND
  const MAXIMUM_DELAY: Time := 30 * SECOND

  function Pow2(n: nat): (p: nat)
    ensures p > 0
  {
    if n == 0 then 1 else 2 * Pow2(n - 1)
  }

  /** Doubling from one second, capped at thirty. */
  function BackOff(attempts: int): Time {
    var delay := MINIMUM_DELAY * if attempts < 1 then 1 else Pow2(attempts - 1);
    if delay > MAXIMUM_DELAY then MAXIMUM_DELAY else delay
  }

  lemma {:induction false} PowGrows(m: nat, n: nat)
    requires m <= n
    ensures Pow2(m) <= Pow2(n)
    decreases n
  {
    if m < n { PowGrows(m, n - 1); }
  }

  // retryBase
  method RetryBase(attempts: int) returns (delay: Time)
    ensures delay == BackOff(attempts) && MINIMUM_DELAY <= delay <= MAXIMUM_DELAY
  {
    var n := if attempts < 1 then 1 else attempts;
    delay := MINIMUM_DELAY;
    var step := 1;
    while step < n
      invariant 1 <= step <= n && delay == MINIMUM_DELAY * Pow2(step - 1) <= MAXIMUM_DELAY
    {
      if delay >= MAXIMUM_DELAY / 2 {
        PowGrows(step, n - 1);
        assert Pow2(step) == 2 * Pow2(step - 1);
        return MAXIMUM_DELAY;
      }
      delay := delay * 2;
      step := step + 1;
    }
    if delay > MAXIMUM_DELAY { return MAXIMUM_DELAY; }
  }

  // retryDelay; `sample` is the 64-bit random number
  method RetryDelay(attempts: int, sample: nat) returns (delay: Time)
    ensures BackOff(attempts) * 8 / 10 <= delay <= BackOff(attempts) * 8 / 10 + BackOff(attempts) * 4 / 10
    ensures 8 * SECOND / 10 <= delay <= 36 * SECOND
  {
    var base := RetryBase(attempts);
    var minimum := base * 8 / 10;
    var span := base * 4 / 10 + 1;
    delay := minimum + sample % span;
  }

  /** Delays never shrink from one attempt to the next. */
  lemma BackOffGrows(m: int, n: int)
    requires m <= n
    ensures BackOff(m) <= BackOff(n)
  {
    PowGrows(if m < 1 then 0 else m - 1, if n < 1 then 0 else n - 1);
  }

  // release; without a random number it waits the base delay
  method ReleaseDelay(attempts: int, sample: Option<nat>) returns (delay: Time)
    ensures 8 * SECOND / 10 <= delay <= 36 * SECOND
    ensures BackOff(attempts) * 8 / 10 <= delay <= BackOff(attempts) * 8 / 10 + BackOff(attempts) * 4 / 10
  {
    if sample.None? { delay := RetryBase(attempts); } else { delay := RetryDelay(attempts, sample.value); }
  }
}
