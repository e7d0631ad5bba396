/** `KafkaSubscriber`: the Kafka consume loop. One step consumes at most one
    record, hands it to the message handler and says whether the loop may go
    on; the loop repeats steps until cancellation or the first refusal. The
    broker, the tasks and the cancellation token are abstracted into the
    environment's answers, one `Round` per iteration. */
module KafkaConsumer {
  import opened Wrappers
  import opened Messaging

  /** A `TimeSpan`, in ticks of 100 nanoseconds. */
  datatype TimeSpan = TimeSpan(ticks: int)

  const TicksPerMillisecond: int := 10000

  function FromMilliseconds(ms: int): (span: TimeSpan)
  {
    TimeSpan(ms * TicksPerMillisecond)
  }

  /** `(int)span.TotalMilliseconds`: whole milliseconds, truncated toward zero. */
  function WholeMilliseconds(span: TimeSpan): (r: int)
    ensures 0 <= span.ticks ==> 0 <= r * TicksPerMillisecond <= span.ticks < (r + 1) * TicksPerMillisecond
    ensures span.ticks < 0 ==> (r - 1) * TicksPerMillisecond < span.ticks <= r * TicksPerMillisecond <= 0
  {
    if 0 <= span.ticks then span.ticks / TicksPerMillisecond
    else -((-span.ticks) / TicksPerMillisecond)
  }

  datatype KafkaSubscriberConfig = KafkaSubscriberConfig(consumeDelay: TimeSpan, consumeTimeout: TimeSpan)

  /** `KafkaSubscriberConfig.Default`. */
  const DefaultConfig: KafkaSubscriberConfig := KafkaSubscriberConfig(FromMilliseconds(250), FromMilliseconds(250))

  /** Both spans of the default configuration are 250 ms, so `Consume` is given 250. */
  lemma DefaultConfigIs250Ms()
    ensures DefaultConfig.consumeDelay == DefaultConfig.consumeTimeout == TimeSpan(250 * TicksPerMillisecond)
    ensures WholeMilliseconds(DefaultConfig.consumeTimeout) == 250
  {
  }

  /** The configuration a subscriber runs with: the one supplied, else the default. */
  function EffectiveConfig(config: Option<KafkaSubscriberConfig>): (r: KafkaSubscriberConfig)
    ensures config.Some? ==> r == config.value
    ensures config.None? ==> r.consumeDelay == r.consumeTimeout == TimeSpan(250 * TicksPerMillisecond)
    ensures config.None? ==> WholeMilliseconds(r.consumeTimeout) == 250
  {
    if config.Some? then config.value else DefaultConfig
  }

  /** `ConsumeException.Error.Code`. */
  datatype ErrorCode = UnknownTopicOrPart | OtherErrorCode(code: int)

  /** The exceptions a step can meet, by the catch clause that receives them. */
  datatype Fault =
    | ConsumeException(code: Option<ErrorCode>)  // None: the exception carries no Error
    | ObjectDisposed
    | TaskCanceled
    | OperationCanceled
    | OtherException

  /** A record returned by `Consume`. */
  datatype ConsumeResult = ConsumeResult(isPartitionEOF: bool, key: Guid, value: seq<bv8>)

  /** How the handler call ended, when it is made. `backoffCancelled` says whether
      the back-off delay after an unknown-topic error would be cancelled. */
  datatype HandlerOutcome = Handled | HandlerRaised(fault: Fault, backoffCancelled: bool)

  /** What one step meets: either `Consume` returns (possibly null), the
      token is then read, and the handler may run; or `Consume` throws. */
  datatype ConsumeOutcome =
    | Returned(result: Option<ConsumeResult>, cancelled: bool, handler: HandlerOutcome)
    | Raised(fault: Fault, backoffCancelled: bool)

  /** The answer of one step: true, false, or an exception leaving the step
      (the back-off `Task.Delay` inside the unknown-topic handler is cancelled). */
  datatype StepVerdict = Continue | Stop | Throws

  /** `result is not null && !result.IsPartitionEOF`. */
  predicate CanProcess(result: Option<ConsumeResult>)
  {
    result.Some? && !result.value.isPartitionEOF
  }

  /** The handler is called on a step exactly when `Consume` returned a record
      that is not a partition end and no cancellation was observed after it. */
  predicate HandlerInvoked(outcome: ConsumeOutcome)
  {
    outcome.Returned? && !outcome.cancelled && CanProcess(outcome.result)
  }

  /** The catch clauses of the step, in order. */
  function Caught(fault: Fault, backoffCancelled: bool): (r: StepVerdict)
    ensures r == Continue <==> fault == ConsumeException(Some(UnknownTopicOrPart)) && !backoffCancelled
    ensures r == Throws <==> fault == ConsumeException(Some(UnknownTopicOrPart)) && backoffCancelled
    ensures fault in {ObjectDisposed, TaskCanceled, OperationCanceled, OtherException} ==> r == Stop
  {
    match fault
    case ConsumeException(Some(UnknownTopicOrPart)) => if backoffCancelled then Throws else Continue
    case ObjectDisposed => Stop
    case TaskCanceled => Stop
    case OperationCanceled => Stop
    case _ => Stop
  }

  /** `ConsumeMessageAsync`: one step of the loop. */
  function ConsumeMessageAsync(outcome: ConsumeOutcome): (r: StepVerdict)
    ensures outcome.Returned? && outcome.cancelled ==> r == Stop
    ensures outcome.Returned? && !outcome.cancelled && !CanProcess(outcome.result) ==> r == Continue
    ensures HandlerInvoked(outcome) && outcome.handler.Handled? ==> r == Continue
    ensures HandlerInvoked(outcome) && outcome.handler.HandlerRaised? ==>
      r == Caught(outcome.handler.fault, outcome.handler.backoffCancelled)
    ensures outcome.Raised? ==> r == Caught(outcome.fault, outcome.backoffCancelled)
    ensures r == Throws ==> !outcome.Returned? || HandlerInvoked(outcome)
  {
    match outcome
    case Raised(fault, backoffCancelled) => Caught(fault, backoffCancelled)
    case Returned(result, cancelled, handler) =>
      if cancelled then Stop
      else if !CanProcess(result) then Continue
      else match handler
        case Handled => Continue
        case HandlerRaised(fault, backoffCancelled) => Caught(fault, backoffCancelled)
  }

  /** One iteration as the environment answers it: whether cancellation is
      requested at the loop test, what the step meets, and whether the
      `Task.Delay` after a successful step is cancelled. */
  datatype Round = Round(stopRequested: bool, outcome: ConsumeOutcome, delayCancelled: bool)

  /** Why the loop ended. `RoundsExhausted`: it was still running when the
      finite list of rounds ran out. */
  datatype LoopExit = CancellationRequested | StepStopped | StepThrew | DelayCancelled | RoundsExhausted

  /** The steps taken, the records handed to the handler in order, and the exit. */
  datatype LoopRun = LoopRun(steps: nat, handled: seq<ConsumeResult>, exit: LoopExit)

  /** The records the handler receives over `rounds`, in order. */
  function HandledIn(rounds: seq<Round>): (handled: seq<ConsumeResult>)
  {
    if rounds == [] then [] else HandledBy(rounds[0]) + HandledIn(rounds[1..])
  }

  /** Whether the loop goes on to its next test after `round`. */
  predicate Proceeds(round: Round)
  {
    !round.stopRequested && ConsumeMessageAsync(round.outcome) == Continue && !round.delayCancelled
  }

  /** The reference run of the `ConsumeMessages` loop over `rounds`. */
  function Run(rounds: seq<Round>): (run: LoopRun)
    ensures run.steps == 0 <==> rounds == [] || rounds[0].stopRequested
  {
    if rounds == [] then LoopRun(0, [], RoundsExhausted)
    else
      var round := rounds[0];
      if round.stopRequested then LoopRun(0, [], CancellationRequested)
      else
        var handled := HandledBy(round);
        var verdict := ConsumeMessageAsync(round.outcome);
        if verdict == Stop then LoopRun(1, handled, StepStopped)
        else if verdict == Throws then LoopRun(1, handled, StepThrew)
        else if round.delayCancelled then LoopRun(1, handled, DelayCancelled)
        else
          var rest := Run(rounds[1..]);
          LoopRun(1 + rest.steps, handled + rest.handled, rest.exit)
  }

  /** Handler calls never exceed the steps taken, nor steps the rounds given. */
  lemma {:induction false} RunBounds(rounds: seq<Round>)
    ensures Run(rounds).steps <= |rounds|
    ensures |Run(rounds).handled| <= Run(rounds).steps
  {
    if rounds != [] && Proceeds(rounds[0]) {
      RunBounds(rounds[1..]);
    }
  }

  /** The handler receives, in order, the record of each step taken in which
      `Consume` returned a processable record and no cancellation was seen
      after it. */
  lemma {:induction false} RunHandles(rounds: seq<Round>)
    ensures Run(rounds).steps <= |rounds|
    ensures Run(rounds).handled == HandledIn(rounds[..Run(rounds).steps])
  {
    if rounds != [] {
      if Proceeds(rounds[0]) {
        RunHandles(rounds[1..]);
        var n := Run(rounds[1..]).steps;
        assert rounds[..1 + n][1..] == rounds[1..][..n];
      } else if !rounds[0].stopRequested {
        assert rounds[..1][1..] == [];
      }
    }
  }

  /** The loop stops at the first round that cancels or refuses: every step
      before the last went on, and the exit names what ended it. */
  lemma {:induction false} RunStopsAtFirstRefusal(rounds: seq<Round>)
    ensures Run(rounds).steps <= |rounds|
    ensures forall j :: 0 <= j < Run(rounds).steps - 1 ==> Proceeds(rounds[j])
    ensures Run(rounds).exit == CancellationRequested ==>
      forall j :: 0 <= j < Run(rounds).steps ==> Proceeds(rounds[j])
    ensures Run(rounds).exit == RoundsExhausted <==>
      Run(rounds).steps == |rounds| && forall j :: 0 <= j < |rounds| ==> Proceeds(rounds[j])
    ensures Run(rounds).exit == CancellationRequested ==>
      Run(rounds).steps < |rounds| && rounds[Run(rounds).steps].stopRequested
    ensures Run(rounds).exit == StepStopped ==>
      0 < Run(rounds).steps && ConsumeMessageAsync(rounds[Run(rounds).steps - 1].outcome) == Stop
    ensures Run(rounds).exit == StepThrew ==>
      0 < Run(rounds).steps && ConsumeMessageAsync(rounds[Run(rounds).steps - 1].outcome) == Throws
    ensures Run(rounds).exit == DelayCancelled ==>
      0 < Run(rounds).steps && rounds[Run(rounds).steps - 1].delayCancelled &&
      ConsumeMessageAsync(rounds[Run(rounds).steps - 1].outcome) == Continue
    ensures forall j :: 0 <= j < Run(rounds).steps ==> !rounds[j].stopRequested
  {
    if rounds != [] && Proceeds(rounds[0]) {
      RunStopsAtFirstRefusal(rounds[1..]);
      forall j | 1 <= j < |rounds| ensures rounds[j] == rounds[1..][j - 1] {}
    }
  }

  /** The records one round hands to the handler. */
  function HandledBy(round: Round): (handled: seq<ConsumeResult>)
  {
    if HandlerInvoked(round.outcome) then [round.outcome.result.value] else []
  }

  /** `run` extended at the front by `steps` steps that handed `handled` to the handler. */
  function After(steps: nat, handled: seq<ConsumeResult>, run: LoopRun): (extended: LoopRun)
  {
    LoopRun(steps + run.steps, handled + run.handled, run.exit)
  }

  /** The reference run from round `i` on, unfolded by one round. */
  lemma RunFrom(rounds: seq<Round>, i: nat)
    requires i < |rounds|
    ensures rounds[i].stopRequested ==> Run(rounds[i..]) == LoopRun(0, [], CancellationRequested)
    ensures !rounds[i].stopRequested && ConsumeMessageAsync(rounds[i].outcome) == Stop ==>
      Run(rounds[i..]) == LoopRun(1, HandledBy(rounds[i]), StepStopped)
    ensures !rounds[i].stopRequested && ConsumeMessageAsync(rounds[i].outcome) == Throws ==>
      Run(rounds[i..]) == LoopRun(1, HandledBy(rounds[i]), StepThrew)
    ensures !rounds[i].stopRequested && ConsumeMessageAsync(rounds[i].outcome) == Continue && rounds[i].delayCancelled ==>
      Run(rounds[i..]) == LoopRun(1, HandledBy(rounds[i]), DelayCancelled)
    ensures Proceeds(rounds[i]) ==> Run(rounds[i..]) == After(1, HandledBy(rounds[i]), Run(rounds[i + 1..]))
  {
    var rest := rounds[i..];
    assert rest[0] == rounds[i] && rest[1..] == rounds[i + 1..];
  }

  /** `ConsumeMessages`: runs steps while no cancellation is requested,
      leaving at the first step that does not answer true. */
  method ConsumeMessages(rounds: seq<Round>) returns (steps: nat, handled: seq<ConsumeResult>, exit: LoopExit)
    ensures LoopRun(steps, handled, exit) == Run(rounds)
  {
    steps, handled, exit := 0, [], RoundsExhausted;
    var i := 0;
    while i < |rounds|
      invariant 0 <= i <= |rounds| && steps == i
      invariant Run(rounds) == After(steps, handled, Run(rounds[i..]))
    {
      var round := rounds[i];
      RunFrom(rounds, i);
      if round.stopRequested {
        exit := CancellationRequested;
        return;
      }
      handled := handled + HandledBy(round);
      var canContinue := ConsumeMessageAsync(round.outcome);
      steps, i := steps + 1, i + 1;
      if canContinue != Continue {
        exit := if canContinue == Stop then StepStopped else StepThrew;
        return;
      }
      if round.delayCancelled {
        exit := DelayCancelled;
        return;
      }
    }
    assert rounds[i..] == [];
  }

  /** The state of the broker consumer the subscriber owns. */
  datatype ConsumerState = Open | Closed

  /** The exception `StopAsync` meets after `Dispose` has nulled the consumer. */
  datatype SubscriberError = NullConsumer

  /** The subscriber's lifecycle fields. */
  class KafkaSubscriber {
    const config: KafkaSubscriberConfig
    /** `_consumer`; None once disposed. */
    var consumer: Option<ConsumerState>
    /** `_stoppingCts`: None before the first start, else whether it is cancelled. */
    var stoppingCts: Option<bool>
    /** Whether `_consumerTask` has been assigned. */
    var consumerTaskStarted: bool

    ghost predicate Valid()
      reads this
    {
      consumerTaskStarted ==> stoppingCts.Some?
    }

    constructor (config: Option<KafkaSubscriberConfig>)
      ensures Valid()
      ensures this.config == EffectiveConfig(config)
      ensures consumer == Some(Open) && stoppingCts == None && !consumerTaskStarted
    {
      this.config := EffectiveConfig(config);
      consumer := Some(Open);
      stoppingCts := None;
      consumerTaskStarted := false;
    }

    /** `StartAsync`: a token source linked to the caller's token (so already
        cancelled if that one is), and the consumer task. */
    method StartAsync(callerCancelled: bool)
      requires Valid()
      modifies this
      ensures Valid()
      ensures stoppingCts == Some(callerCancelled) && consumerTaskStarted
      ensures consumer == old(consumer)
    {
      stoppingCts := Some(callerCancelled);
      consumerTaskStarted := true;
    }

    /** `StopAsync`: without a consumer task it returns at once and changes
        nothing; otherwise it closes the consumer and cancels the loop. */
    method StopAsync() returns (r: Outcome<SubscriberError>)
      requires Valid()
      modifies this
      ensures Valid()
      ensures !old(consumerTaskStarted) ==> r == Pass && unchanged(this)
      ensures old(consumerTaskStarted) ==> old(stoppingCts).Some?
      ensures old(consumerTaskStarted) && old(consumer).None? ==> r == Fail(NullConsumer) && unchanged(this)
      ensures old(consumerTaskStarted) && old(consumer).Some? ==>
        r == Pass && consumer == Some(Closed) && stoppingCts == Some(true) && consumerTaskStarted
    {
      if !consumerTaskStarted {
        return Pass;
      }
      if consumer.None? {
        return Fail(NullConsumer);
      }
      consumer := Some(Closed);
      stoppingCts := Some(true);
      return Pass;
    }

    /** `Dispose`: cancels the loop if it was started and drops the consumer. */
    method Dispose()
      requires Valid()
      modifies this
      ensures Valid()
      ensures consumer == None
      ensures stoppingCts == (if old(stoppingCts).None? then None else Some(true))
      ensures consumerTaskStarted == old(consumerTaskStarted)
    {
      if stoppingCts.Some? {
        stoppingCts := Some(true);
      }
      consumer := None;
    }
  }
}
