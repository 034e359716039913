/**
 The engine's shutdown state machine: a counter of interrupt signals, the
 graceful flag that stops the word and request loops, the forcing flag that
 lets the supervisor stop waiting, and the collector's finish reason.
 */
module Shutdown {

  datatype State = State(signalCount: nat, shuttingDown: bool, shutdown: bool, finishReason: string)

  /** The reason both signal paths give. */
  const SigIntReason := "Received SIGNAL INT"

  /** The state right after the engine is built; the finish reason is the
      collector's own. */
  function Initial(reason: string): State {
    State(0, false, false, reason)
  }

  /** `close_crawler(reason, force)` */
  function Close(s: State, reason: string, force: bool): State {
    if force then s.(shutdown := true, finishReason := reason)
    else s.(shuttingDown := true, finishReason := reason)
  }

  /** `__shutdown_signal`: count the signal; the first closes gracefully, any
      later one by force. */
  function Signal(s: State): State {
    var counted := s.(signalCount := s.signalCount + 1);
    if counted.signalCount == 1 then Close(counted, SigIntReason, false)
    else Close(counted, SigIntReason, true)
  }

  /** The guard of the word and request loops (engine.py:244, :260). */
  predicate LoopsContinue(s: State) {
    !s.shuttingDown
  }

  /** The supervisor's exit test (engine.py:337). */
  predicate SupervisorExits(s: State, mainJobClosed: bool) {
    s.shutdown || mainJobClosed
  }

  datatype Event = SigInt | CloseCall(reason: string, force: bool)

  function Step(s: State, e: Event): State {
    match e
    case SigInt => Signal(s)
    case CloseCall(reason, force) => Close(s, reason, force)
  }

  function Run(s: State, es: seq<Event>): State {
    if es == [] then s else Step(Run(s, es[..|es| - 1]), es[|es| - 1])
  }

  function Signals(es: seq<Event>): nat {
    if es == [] then 0 else Signals(es[..|es| - 1]) + (if es[|es| - 1].SigInt? then 1 else 0)
  }

  function ReasonOf(e: Event): string {
    match e
    case SigInt => SigIntReason
    case CloseCall(reason, _) => reason
  }

  /** One signal: the counter goes up by one; the first sets only the graceful
      flag, every later one only the forcing flag; the reason is the signal's. */
  lemma SignalEffect(s: State)
    ensures Signal(s).signalCount == s.signalCount + 1
    ensures s.signalCount == 0 ==> Signal(s).shuttingDown && Signal(s).shutdown == s.shutdown
    ensures s.signalCount >= 1 ==> Signal(s).shutdown && Signal(s).shuttingDown == s.shuttingDown
    ensures Signal(s).finishReason == SigIntReason
  {
  }

  /** A forced close does not set the graceful flag: the loops keep running,
      but the supervisor stops waiting for them. */
  lemma ForcedCloseSkipsDrain(reason: string, closingReason: string, mainJobClosed: bool)
    ensures var s := Close(Initial(reason), closingReason, true);
      LoopsContinue(s) && SupervisorExits(s, mainJobClosed) && s.finishReason == closingReason
  {
  }

  /** Over any run: the counter counts the signals, both flags only go from
      false to true, and the finish reason is the one given last. */
  lemma {:induction false} RunMonotone(s: State, es: seq<Event>)
    ensures Run(s, es).signalCount == s.signalCount + Signals(es)
    ensures s.shuttingDown ==> Run(s, es).shuttingDown
    ensures s.shutdown ==> Run(s, es).shutdown
    ensures es != [] ==> Run(s, es).finishReason == ReasonOf(es[|es| - 1])
    ensures es == [] ==> Run(s, es).finishReason == s.finishReason
  {
    if es != [] {
      RunMonotone(s, es[..|es| - 1]);
    }
  }

  /** From a fresh engine: after one signal the loops stop; after two, the
      supervisor exits whether or not the main job has finished. */
  lemma {:induction false} SignalsStopCrawler(reason: string, es: seq<Event>, mainJobClosed: bool)
    ensures Signals(es) >= 1 ==> !LoopsContinue(Run(Initial(reason), es))
    ensures Signals(es) >= 2 ==> SupervisorExits(Run(Initial(reason), es), mainJobClosed)
  {
    if es != [] {
      var prefix := es[..|es| - 1];
      SignalsStopCrawler(reason, prefix, mainJobClosed);
      RunMonotone(Initial(reason), prefix);
    }
  }

  /** A single graceful close stops the loops, yet the supervisor still waits
      for the main job. */
  lemma GracefulCloseDrains(reason: string, closingReason: string)
    ensures var s := Close(Initial(reason), closingReason, false);
      !LoopsContinue(s) && !SupervisorExits(s, false) && SupervisorExits(s, true)
  {
  }
}
