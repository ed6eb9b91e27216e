/** The validator: idempotent/consumer.go, validator.go, its random validator and the record consumer
    around them, in one database transaction that does not cover the topic. */
module Validation {
  import opened Kafka
  import opened Codec
  import opened Batch
  import opened Transactions

  datatype RecordConsumer = ValidateAndCompensate

  /** The record consumers the idempotent consumer is wired with. */
  const RECORD_CONSUMERS: seq<RecordConsumer> := [ValidateAndCompensate]

  datatype PublishOutcome = Acknowledged | Lost | Unacknowledged

  /** What the environment decides about one attempt: a verdict or id of None is an error, and
      `transient` is how an error of the attempt is classified. */
  datatype Attempt = Attempt(begins: bool, checks: bool, verdict: Option<bool>, id: Option<string>, now: int,
                             publish: PublishOutcome, marks: bool, commit: CommitOutcome, transient: bool)

  predicate Accepts(attempt: Attempt) {
    attempt.verdict.Some? && attempt.verdict.value
  }

  /** The transaction was judged invalid and a compensating id was drawn. */
  predicate Rejects(attempt: Attempt) {
    attempt.verdict.Some? && !attempt.verdict.value && attempt.id.Some?
  }

  function Compensation(attempt: Attempt, cmd: RegisterCommand): Message
    requires Rejects(attempt)
  {
    NewUnregisterMessage(attempt.id.value, attempt.now, cmd)
  }

  /** What one attempt at a register may do to the processed table and to the topic. A compensation may
      be published without the mark being kept, never the other way round. */
  ghost predicate JudgeStep(processed: set<string>, topic: seq<Message>, cmd: RegisterCommand, attempt: Attempt,
                            result: HandlerResult, processed': set<string>, topic': seq<Message>) {
    var rejected := topic' != topic;
    if cmd.transactionId in processed then processed' == processed && !rejected
    else
      && (rejected ==> Rejects(attempt) && topic' == topic + [Compensation(attempt, cmd)])
      && (processed' == processed || processed' == processed + {cmd.transactionId})
      && (processed' != processed ==> (if rejected then Rejects(attempt) else Accepts(attempt)))
      && (result == Succeeded ==> cmd.transactionId in processed')
  }

  ghost predicate ValidatorStep(processed: set<string>, topic: seq<Message>, message: Message, attempt: Attempt,
                                result: HandlerResult, processed': set<string>, topic': seq<Message>) {
    match MapToRegisterCommand(message)
    case Err(_) => result == Permanent && processed' == processed && topic' == topic
    case Ok(None) => result == Succeeded && processed' == processed && topic' == topic
    case Ok(Some(cmd)) => JudgeStep(processed, topic, cmd, attempt, result, processed', topic')
  }

  /** An attempt adds to the topic behind whatever is there, so what it may do does not depend on what
      others append while it runs. */
  lemma AttemptsOnlyAppend(processed: set<string>, topic: seq<Message>, message: Message, attempt: Attempt,
                           result: HandlerResult, processed': set<string>, topic': seq<Message>)
    ensures ValidatorStep(processed, topic, message, attempt, result, processed', topic')
            <==> topic <= topic'
                 && ValidatorStep(processed, [], message, attempt, result, processed', topic'[|topic|..])
  {
    if topic <= topic' {
      var added := topic'[|topic|..];
      assert topic' == topic + added;
      assert topic' == topic <==> added == [];
      forall m: Message
        ensures topic' == topic + [m] <==> added == [m]
      {
        assert (topic + [m])[|topic|..] == [m];
      }
    }
  }

  /** The function inside the transaction returns nil. */
  predicate Runs(handled: bool, attempt: Attempt) {
    && attempt.begins && attempt.checks
    && (handled
        || ((Accepts(attempt) || (Rejects(attempt) && attempt.publish == Acknowledged)) && attempt.marks))
  }

  /** A compensation reaches the topic. */
  predicate Reaches(handled: bool, attempt: Attempt) {
    attempt.begins && attempt.checks && !handled && Rejects(attempt) && attempt.publish != Lost
  }

  /** Nothing goes wrong in the attempt. */
  predicate Smooth(attempt: Attempt) {
    && attempt.begins && attempt.checks && attempt.verdict.Some? && attempt.id.Some?
    && attempt.publish == Acknowledged && attempt.marks && attempt.commit == Committed
  }

  class Validator {
    var processed: set<string>    // ids in processed_transactions
    var topic: seq<Message>       // the transactions topic: not part of any transaction

    constructor (topic: seq<Message>)
      ensures processed == {} && this.topic == topic
    {
      processed, this.topic := {}, topic;
    }

    /** `Unregister`: a new id, the whole register command, and its transaction id as the key. */
    method Unregister(cmd: RegisterCommand, attempt: Attempt) returns (ok: bool)
      requires attempt.verdict.Some? && !attempt.verdict.value
      modifies this`topic
      ensures ok <==> attempt.id.Some? && attempt.publish == Acknowledged
      ensures topic
           == old(topic) + if Rejects(attempt) && attempt.publish != Lost then [Compensation(attempt, cmd)] else []
    {
      if attempt.id.None? {
        return false;
      }
      var record := NewUnregisterMessage(attempt.id.value, attempt.now, cmd);
      if attempt.publish != Lost {
        topic := topic + [record];
      }
      ok := attempt.publish == Acknowledged;
    }

    method ValidateAndCompensate(cmd: RegisterCommand, attempt: Attempt) returns (ok: bool)
      modifies this`topic
      ensures attempt.verdict == Some(true) ==> ok
      ensures attempt.verdict == None ==> !ok
      ensures attempt.verdict != Some(false) ==> topic == old(topic)
      ensures ok <==> Accepts(attempt) || (Rejects(attempt) && attempt.publish == Acknowledged)
      ensures topic
           == old(topic) + if Rejects(attempt) && attempt.publish != Lost then [Compensation(attempt, cmd)] else []
    {
      if attempt.verdict.None? {
        return false;
      }
      if attempt.verdict.value {
        return true;
      }
      ok := Unregister(cmd, attempt);
    }

    method MessageAlreadyHandled(cmd: RegisterCommand, attempt: Attempt) returns (handled: Option<bool>)
      ensures handled == if attempt.checks then Some(cmd.transactionId in processed) else None
    {
      handled := if attempt.checks then Some(cmd.transactionId in processed) else None;
    }

    /** `Consume` of the idempotent consumer up to its deferred mark. */
    method ConsumeUnlessHandled(cmd: RegisterCommand, attempt: Attempt) returns (ok: bool, alreadyHandled: bool)
      modifies this`topic
      ensures ok ==> alreadyHandled == (cmd.transactionId in processed)
      ensures ok && !alreadyHandled ==> (if topic == old(topic) then Accepts(attempt) else Rejects(attempt))
      ensures topic == old(topic)
              || (cmd.transactionId !in processed && Rejects(attempt)
                  && topic == old(topic) + [Compensation(attempt, cmd)])
      ensures Smooth(attempt) ==> ok
      ensures ok ==> attempt.checks
      ensures attempt.checks && cmd.transactionId in processed ==> ok
      ensures attempt.checks && cmd.transactionId !in processed ==>
                (ok <==> Accepts(attempt) || (Rejects(attempt) && attempt.publish == Acknowledged))
      ensures topic
           == old(topic) + if attempt.checks && cmd.transactionId !in processed && Rejects(attempt)
                              && attempt.publish != Lost
                           then [Compensation(attempt, cmd)]
                           else []
    {
      var handled := MessageAlreadyHandled(cmd, attempt);
      if handled.None? {
        return false, false;
      }
      alreadyHandled := handled.value;
      if alreadyHandled {
        return true, true;
      }
      for i := 0 to |RECORD_CONSUMERS|
        invariant i == 0 ==> topic == old(topic)
        invariant i == 1 ==>
                    && (Accepts(attempt) || (Rejects(attempt) && attempt.publish == Acknowledged))
                    && topic == old(topic) + if Rejects(attempt) then [Compensation(attempt, cmd)] else []
        invariant i == 1 ==> (if topic == old(topic) then Accepts(attempt) else Rejects(attempt))
        invariant topic == old(topic) || (Rejects(attempt) && topic == old(topic) + [Compensation(attempt, cmd)])
      {
        match RECORD_CONSUMERS[i] {
          case ValidateAndCompensate => ok := ValidateAndCompensate(cmd, attempt);
        }
        if !ok {
          return false, false;
        }
      }
      ok := true;
    }

    /** `WithTx` around `Consume` and its deferred mark: the mark is all or nothing, a publish stays. */
    method WithTx(cmd: RegisterCommand, attempt: Attempt) returns (result: HandlerResult)
      modifies this
      ensures JudgeStep(old(processed), old(topic), cmd, attempt, result, processed, topic)
      ensures result != Succeeded ==> (result == Transient <==> attempt.transient)
      ensures result == Succeeded <==> Runs(cmd.transactionId in old(processed), attempt) && attempt.commit == Committed
      ensures processed
           == if Runs(cmd.transactionId in old(processed), attempt) && attempt.commit != CommitFailed
              then old(processed) + {cmd.transactionId}
              else old(processed)
      ensures topic
           == old(topic) + if Reaches(cmd.transactionId in old(processed), attempt)
                           then [Compensation(attempt, cmd)]
                           else []
    {
      var failed := if attempt.transient then Transient else Permanent;
      if !attempt.begins {
        return failed;
      }
      var ok, alreadyHandled := ConsumeUnlessHandled(cmd, attempt);
      if !ok {
        return failed;
      }
      var marked := processed;
      if !alreadyHandled {
        if !attempt.marks {
          return failed;
        }
        marked := processed + {cmd.transactionId};
      }
      match attempt.commit {
        case Committed =>
          processed := marked;
          return Succeeded;
        case CommitAmbiguous =>
          processed := marked;
          return failed;
        case CommitFailed =>
          return failed;
      }
    }

    /** The record consumer the validator gives to kgoconsumer: compensations are not for it. */
    method ConsumeRecord(message: Message, attempt: Attempt) returns (result: HandlerResult)
      modifies this
      ensures ValidatorStep(old(processed), old(topic), message, attempt, result, processed, topic)
      ensures Smooth(attempt) ==> result == if MapToRegisterCommand(message).Ok? then Succeeded else Permanent
      ensures MapToRegisterCommand(message).Ok? && result != Succeeded ==> (result == Transient <==> attempt.transient)
    {
      var cmd := MapToRegisterCommand(message);
      if cmd.Err? {
        return Permanent;
      }
      if cmd.value.None? {
        return Succeeded;
      }
      result := WithTx(cmd.value.value, attempt);
    }
  }
}
