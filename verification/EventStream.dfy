/**
 The single-owner event stream of an adapter session: producers publish into a FIFO, one owner
 goroutine forwards it to the public channel, graceful close drains it, abort cuts it short
 (internal/adapter/protocol/stream.go, internal/adapter/protocol/emit.go).

 Every critical section, channel operation and goroutine hand-over is one step; a run is any
 interleaving of steps.
 */
module EventStream {

  /** Kinds of native event; Protocol(name) stands for the kinds spelled "protocol." ++ name. */
  datatype Kind =
    | ResultSubmitted | TurnFailed | PermissionRequested | TurnCompleted | TurnStarted | TurnInterrupted
    | SessionStarted | SessionResumed | SessionTerminated | ProcessExited | ProcessOrphaned
    | UserInputRequested | ScopeExpansionRequested
    | Protocol(name: string)
    | Other(name: string)

  datatype Native = Native(kind: Kind, body: string)

  /** IsCriticalNativeEvent: everything that carries lifecycle control. */
  predicate IsCritical(kind: Kind) {
    match kind
    case Protocol(name) => name != "thinking"
    case Other(_) => false
    case _ => true
  }

  datatype Queued = Queued(event: Native, critical: bool, seqNo: nat)

  datatype PublishResult = Accepted | DroppedProgress | Rejected

  /** Where the owner goroutine is; Closing0..2 are the three actions of finish. */
  datatype Owner = AtLock | Forwarding(event: Native) | Parked | Closing0 | Closing1 | Closing2 | Exited

  /**
   Fields of the stream, its channels, the goroutines between their critical section and their
   channel operation, and the history of what was accepted and sent.
   */
  datatype State = State(
    queue: seq<Queued>,
    progressInQueue: int,
    progressLimit: nat,
    nextSeq: nat,
    droppedProgress: nat,
    accepting: bool,
    gracefulClose: bool,
    aborting: bool,
    ownerExited: bool,
    wakeToken: bool,
    abortClosed: bool,
    outCloses: nat,
    done: bool,
    owner: Owner,
    sent: seq<Native>,
    log: Log)

  /**
   Bookkeeping the code does not keep: goroutines that left their critical section and still owe
   a channel operation, and the publish calls by outcome.
   */
  datatype Log = Log(signallers: nat, aborters: nat, accepted: seq<Native>, calls: nat, rejected: nat)

  /** NewEventStream's default for a non-positive limit. */
  function EffectiveLimit(requested: int): (limit: nat)
    ensures limit > 0
  {
    if requested <= 0 then 256 else requested
  }

  function Init(requestedLimit: int): State {
    State([], 0, EffectiveLimit(requestedLimit), 0, 0, true, false, false, false, false, false, 0, false,
          AtLock, [], Log(0, 0, [], 0, 0))
  }

  datatype Step =
    | Publish(event: Native)
    | Signal
    | Close
    | Abort
    | CloseAbortChannel
    | OwnerLock
    | OwnerSend
    | OwnerSendAborted
    | OwnerWake
    | OwnerWaitAborted
    | OwnerFinish

  function PublishOutcome(s: State, e: Native): PublishResult {
    if !s.accepting || s.aborting then Rejected
    else if !IsCritical(e.kind) && s.progressInQueue >= s.progressLimit then DroppedProgress
    else Accepted
  }

  function Recorded(log: Log, e: Native, outcome: PublishResult): Log {
    match outcome
    case Rejected => log.(calls := log.calls + 1, rejected := log.rejected + 1)
    case DroppedProgress => log.(calls := log.calls + 1)
    case Accepted => log.(calls := log.calls + 1, accepted := log.accepted + [e], signallers := log.signallers + 1)
  }

  function AfterPublish(s: State, e: Native): State {
    match PublishOutcome(s, e)
    case Rejected => s.(log := Recorded(s.log, e, Rejected))
    case DroppedProgress => s.(droppedProgress := s.droppedProgress + 1, log := Recorded(s.log, e, DroppedProgress))
    case Accepted =>
      s.(progressInQueue := s.progressInQueue + (if IsCritical(e.kind) then 0 else 1),
         nextSeq := s.nextSeq + 1,
         queue := s.queue + [Queued(e, IsCritical(e.kind), s.nextSeq + 1)],
         log := Recorded(s.log, e, Accepted))
  }

  /** The owner's critical section together with the decision it takes on leaving it. */
  function AfterOwnerLock(s: State): State {
    if s.aborting then s.(queue := [], progressInQueue := 0, owner := Closing0)
    else if s.queue != [] then
      s.(queue := s.queue[1..],
         progressInQueue := s.progressInQueue - (if s.queue[0].critical then 0 else 1),
         owner := Forwarding(s.queue[0].event))
    else if s.gracefulClose && !s.accepting then s.(owner := Closing0)
    else s.(owner := Parked)
  }

  function AfterFinish(s: State): State {
    match s.owner
    case Closing0 => s.(ownerExited := true, accepting := false, owner := Closing1)
    case Closing1 => s.(outCloses := s.outCloses + 1, owner := Closing2)
    case Closing2 => s.(done := true, owner := Exited)
    case _ => s
  }

  /** One step; a step that is not enabled leaves the state alone. */
  function Next(s: State, step: Step): State {
    match step
    case Publish(e) => AfterPublish(s, e)
    case Signal => if s.log.signallers > 0 then s.(wakeToken := true, log := s.log.(signallers := s.log.signallers - 1)) else s
    case Close => s.(accepting := false, gracefulClose := true, log := s.log.(signallers := s.log.signallers + 1))
    case Abort => s.(accepting := false, aborting := true, log := s.log.(aborters := s.log.aborters + 1))
    case CloseAbortChannel =>
      if s.log.aborters > 0 then
        s.(abortClosed := true, log := s.log.(aborters := s.log.aborters - 1, signallers := s.log.signallers + 1))
      else s
    case OwnerLock => if s.owner.AtLock? then AfterOwnerLock(s) else s
    case OwnerSend => if s.owner.Forwarding? then s.(sent := s.sent + [s.owner.event], owner := AtLock) else s
    case OwnerSendAborted => if s.owner.Forwarding? && s.abortClosed then s.(owner := Closing0) else s
    case OwnerWake => if s.owner.Parked? && s.wakeToken then s.(wakeToken := false, owner := AtLock) else s
    case OwnerWaitAborted => if s.owner.Parked? && s.abortClosed then s.(owner := Closing0) else s
    case OwnerFinish => AfterFinish(s)
  }

  function Run(s: State, steps: seq<Step>): State
    decreases |steps|
  {
    if steps == [] then s else Run(Next(s, steps[0]), steps[1..])
  }

  function ProgressCount(q: seq<Queued>): nat {
    if q == [] then 0 else (if q[0].critical then 0 else 1) + ProgressCount(q[1..])
  }

  function Events(q: seq<Queued>): seq<Native> {
    if q == [] then [] else [q[0].event] + Events(q[1..])
  }

  function InFlight(s: State): seq<Native> {
    if s.owner.Forwarding? then [s.owner.event] else []
  }

  predicate OwnerLive(s: State) {
    s.owner.AtLock? || s.owner.Forwarding? || s.owner.Parked?
  }

  /** Sequence numbers in the queue are the positions of the accepted events still to come. */
  predicate Numbered(s: State) {
    && s.nextSeq == |s.log.accepted|
    && |s.queue| <= s.nextSeq
    && forall i :: 0 <= i < |s.queue| ==> s.queue[i].seqNo == s.nextSeq - |s.queue| + i + 1
  }

  predicate Accounting(s: State) {
    && s.progressInQueue == ProgressCount(s.queue)
    && s.progressInQueue <= s.progressLimit
    && s.log.calls == |s.log.accepted| + s.droppedProgress + s.log.rejected
    && Numbered(s)
  }

  predicate Order(s: State) {
    && (OwnerLive(s) ==> s.sent + InFlight(s) + Events(s.queue) == s.log.accepted)
    && (!OwnerLive(s) ==> s.sent <= s.log.accepted)
    && (!OwnerLive(s) && !s.aborting ==> s.sent == s.log.accepted && s.queue == [] && s.gracefulClose)
  }

  predicate Flags(s: State) {
    && (s.gracefulClose || s.aborting ==> !s.accepting)
    && (s.abortClosed || s.log.aborters > 0 ==> s.aborting)
    && (s.aborting ==> s.abortClosed || s.log.aborters > 0)
    && (!OwnerLive(s) ==> s.gracefulClose || s.aborting)
    && (s.ownerExited <==> s.owner.Closing1? || s.owner.Closing2? || s.owner.Exited?)
    && s.outCloses == (if s.owner.Closing2? || s.owner.Exited? then 1 else 0)
    && (s.done <==> s.owner.Exited?)
  }

  /** Nobody sleeps through work: a parked owner with something to do has a wake-up under way. */
  predicate WakeUpPending(s: State) {
    s.owner.Parked? && (s.queue != [] || s.gracefulClose || s.aborting) ==>
      s.wakeToken || s.abortClosed || s.log.signallers > 0 || s.log.aborters > 0
  }

  predicate Inv(s: State) {
    Accounting(s) && Order(s) && Flags(s) && WakeUpPending(s)
  }

  lemma {:induction false} CountSnoc(q: seq<Queued>, x: Queued)
    ensures ProgressCount(q + [x]) == ProgressCount(q) + if x.critical then 0 else 1
    ensures Events(q + [x]) == Events(q) + [x.event]
    decreases |q|
  {
    if q == [] {
      assert q + [x] == [x];
    } else {
      assert (q + [x])[1..] == q[1..] + [x];
      CountSnoc(q[1..], x);
    }
  }

  lemma PublishKeepsInv(s: State, e: Native)
    requires Inv(s)
    ensures Inv(AfterPublish(s, e))
  {
    if PublishOutcome(s, e).Accepted? {
      CountSnoc(s.queue, Queued(e, IsCritical(e.kind), s.nextSeq + 1));
      assert s.sent + InFlight(s) + (Events(s.queue) + [e]) == s.sent + InFlight(s) + Events(s.queue) + [e];
    }
  }

  lemma OwnerLockKeepsInv(s: State)
    requires Inv(s) && s.owner.AtLock?
    ensures Inv(AfterOwnerLock(s))
  {
    assert s.sent + [] + Events(s.queue) == s.sent + Events(s.queue);
    if !s.aborting && s.queue != [] {
      assert s.sent + [s.queue[0].event] + Events(s.queue[1..]) == s.sent + Events(s.queue);
    }
  }

  lemma ForwardKeepsInv(s: State, step: Step)
    requires Inv(s) && (step.OwnerSend? || step.OwnerSendAborted? || step.OwnerWaitAborted?)
    ensures Inv(Next(s, step))
  {
    if step.OwnerSend? {
      assert s.sent + InFlight(s) + [] + Events(s.queue) == s.sent + InFlight(s) + Events(s.queue);
    } else {
      assert s.sent + InFlight(s) + Events(s.queue) == s.sent + (InFlight(s) + Events(s.queue));
    }
  }

  lemma OwnerIdleKeepsInv(s: State, step: Step)
    requires Inv(s) && (step.OwnerWake? || step.OwnerFinish?)
    ensures Inv(Next(s, step))
  {
  }

  lemma OthersKeepInv(s: State, step: Step)
    requires Inv(s) && (step.Signal? || step.Close? || step.Abort? || step.CloseAbortChannel?)
    ensures Inv(Next(s, step))
  {
  }

  lemma NextKeepsInv(s: State, step: Step)
    requires Inv(s)
    ensures Inv(Next(s, step))
  {
    match step
    case Publish(e) => PublishKeepsInv(s, e);
    case OwnerLock => if s.owner.AtLock? { OwnerLockKeepsInv(s); }
    case OwnerSend => ForwardKeepsInv(s, step);
    case OwnerSendAborted => ForwardKeepsInv(s, step);
    case OwnerWaitAborted => ForwardKeepsInv(s, step);
    case OwnerWake => OwnerIdleKeepsInv(s, step);
    case OwnerFinish => OwnerIdleKeepsInv(s, step);
    case Signal => OthersKeepInv(s, step);
    case Close => OthersKeepInv(s, step);
    case Abort => OthersKeepInv(s, step);
    case CloseAbortChannel => OthersKeepInv(s, step);
  }

  lemma {:induction false} RunKeepsInv(s: State, steps: seq<Step>)
    requires Inv(s)
    ensures Inv(Run(s, steps))
    decreases |steps|
  {
    if steps != [] {
      NextKeepsInv(s, steps[0]);
      RunKeepsInv(Next(s, steps[0]), steps[1..]);
    }
  }

  lemma SentIsPrefix(s: State)
    requires Inv(s)
    ensures s.sent <= s.log.accepted
  {
    if OwnerLive(s) {
      assert s.sent + InFlight(s) + Events(s.queue) == s.sent + (InFlight(s) + Events(s.queue));
    }
  }

  /**
   Order and conservation over every interleaving: up to an abort, sent, in flight and queued
   events are the accepted ones in order; sent events are always a prefix of them; every publish
   call is counted once; non-critical events alone fill the bounded part of the queue; and a
   parked owner with work has a wake-up under way.
   */
  lemma {:induction false} EveryRunConserves(limit: int, steps: seq<Step>)
    ensures var s := Run(Init(limit), steps);
      && (!s.aborting ==> s.sent + InFlight(s) + Events(s.queue) == s.log.accepted)
      && s.sent <= s.log.accepted
      && s.log.calls == |s.log.accepted| + s.droppedProgress + s.log.rejected
      && 0 <= s.progressInQueue == ProgressCount(s.queue) <= s.progressLimit
      && (forall i :: 0 <= i < |s.queue| ==> s.queue[i].seqNo == |s.log.accepted| - |s.queue| + i + 1)
      && WakeUpPending(s)
  {
    RunKeepsInv(Init(limit), steps);
    var s := Run(Init(limit), steps);
    SentIsPrefix(s);
    assert s.sent + [] + [] == s.sent;
  }

  /** The stream accepts until somebody closes or aborts it. */
  predicate AcceptsUntilClosed(s: State) {
    s.accepting <==> !s.gracefulClose && !s.aborting
  }

  lemma AcceptingStep(s: State, step: Step)
    requires Inv(s) && AcceptsUntilClosed(s)
    ensures AcceptsUntilClosed(Next(s, step))
  {
    match step
    case Publish(_) =>
    case Signal =>
    case Close =>
    case Abort =>
    case CloseAbortChannel =>
    case OwnerLock =>
    case OwnerSend =>
    case OwnerSendAborted =>
    case OwnerWake =>
    case OwnerWaitAborted =>
    case OwnerFinish =>
  }

  lemma {:induction false} RunAccepting(s: State, steps: seq<Step>)
    requires Inv(s) && AcceptsUntilClosed(s)
    ensures AcceptsUntilClosed(Run(s, steps))
    decreases |steps|
  {
    if steps != [] {
      NextKeepsInv(s, steps[0]);
      AcceptingStep(s, steps[0]);
      RunAccepting(Next(s, steps[0]), steps[1..]);
    }
  }

  /** A critical event is never dropped: it is accepted exactly until somebody closes or aborts. */
  lemma {:induction false} CriticalNeverDropped(limit: int, steps: seq<Step>, e: Native)
    requires IsCritical(e.kind)
    ensures var s := Run(Init(limit), steps);
      && (PublishOutcome(s, e).Accepted? <==> !s.gracefulClose && !s.aborting)
      && !PublishOutcome(s, e).DroppedProgress?
  {
    RunAccepting(Init(limit), steps);
  }

  /** Result, failure, permission, turn, session, process and request events, and every protocol event but thinking. */
  predicate CarriesControl(kind: Kind) {
    || kind in {ResultSubmitted, TurnFailed, PermissionRequested, TurnCompleted, TurnStarted, TurnInterrupted, SessionStarted,
                SessionResumed, SessionTerminated, ProcessExited, ProcessOrphaned, UserInputRequested, ScopeExpansionRequested}
    || (kind.Protocol? && kind.name != "thinking")
  }

  lemma StepKeepsLimit(s: State, step: Step)
    ensures Next(s, step).progressLimit == s.progressLimit
  {
    match step
    case Publish(e) =>
    case OwnerLock =>
    case _ =>
  }

  lemma {:induction false} LimitStays(s: State, steps: seq<Step>)
    ensures Run(s, steps).progressLimit == s.progressLimit
    decreases |steps|
  {
    if steps != [] {
      StepKeepsLimit(s, steps[0]);
      LimitStays(Next(s, steps[0]), steps[1..]);
    }
  }

  /**
   By kind: while the stream is open an event that carries control is accepted however full the queue
   is, any other exactly while the queued ones of its sort are below the limit; a closed stream
   rejects both.
   */
  lemma {:induction false} PublishByKind(limit: int, steps: seq<Step>, e: Native)
    ensures var s := Run(Init(limit), steps);
      PublishOutcome(s, e) ==
        if s.gracefulClose || s.aborting then Rejected
        else if CarriesControl(e.kind) || ProgressCount(s.queue) < (if limit <= 0 then 256 else limit) then Accepted
        else DroppedProgress
  {
    LimitStays(Init(limit), steps);
    RunAccepting(Init(limit), steps);
    RunKeepsInv(Init(limit), steps);
  }

  predicate IsOwnerStep(step: Step) {
    match step
    case Publish(_) | Signal | Close | Abort | CloseAbortChannel => false
    case _ => true
  }

  predicate OwnerMoved(s: State, step: Step) {
    IsOwnerStep(step) && Next(s, step).owner != s.owner
  }

  /** Number of steps of a run in which the owner really moves. */
  function OwnerMoves(s: State, steps: seq<Step>): nat
    decreases |steps|
  {
    if steps == [] then 0
    else (if OwnerMoved(s, steps[0]) then 1 else 0) + OwnerMoves(Next(s, steps[0]), steps[1..])
  }

  predicate AbortFree(steps: seq<Step>) {
    forall i :: 0 <= i < |steps| ==> !steps[i].Abort?
  }

  predicate Draining(s: State) {
    Inv(s) && s.gracefulClose && !s.aborting
  }

  /** Owner moves left until the public channel and done are closed, for a stream being drained. */
  function Remaining(s: State): nat {
    match s.owner
    case AtLock => 2 * |s.queue| + 4
    case Forwarding(_) => 2 * |s.queue| + 5
    case Parked => 2 * |s.queue| + 5
    case Closing0 => 3
    case Closing1 => 2
    case Closing2 => 1
    case Exited => 0
  }

  lemma DrainStep(s: State, step: Step)
    requires Flags(s) && s.gracefulClose && !s.aborting && !step.Abort?
    ensures var n := Next(s, step); n.gracefulClose && !n.aborting && n.log.accepted == s.log.accepted
    ensures Remaining(Next(s, step)) + (if OwnerMoved(s, step) then 1 else 0) == Remaining(s)
  {
    match step
    case Publish(_) =>
    case Signal =>
    case Close =>
    case Abort =>
    case CloseAbortChannel =>
    case OwnerLock =>
    case OwnerSend =>
    case OwnerSendAborted =>
    case OwnerWake =>
    case OwnerWaitAborted =>
    case OwnerFinish =>
  }

  lemma {:induction false} DrainRun(s: State, steps: seq<Step>)
    requires Draining(s) && AbortFree(steps)
    ensures Draining(Run(s, steps)) && Run(s, steps).log.accepted == s.log.accepted
    ensures Remaining(Run(s, steps)) + OwnerMoves(s, steps) == Remaining(s)
    decreases |steps|
  {
    if steps != [] {
      NextKeepsInv(s, steps[0]);
      DrainStep(s, steps[0]);
      DrainRun(Next(s, steps[0]), steps[1..]);
    }
  }

  /**
   Graceful close: queued plus in-flight work is an exact measure. Whatever the other goroutines
   do, each move of the owner takes one off it, so the stream has ended after exactly Remaining(s)
   owner moves, with the public channel closed once, and only after every accepted event was sent.
   */
  lemma {:induction false} GracefulCloseDrains(s: State, steps: seq<Step>)
    requires Draining(s) && AbortFree(steps)
    ensures var t := Run(s, steps);
      && OwnerMoves(s, steps) <= Remaining(s)
      && (OwnerMoves(s, steps) == Remaining(s) <==> t.owner.Exited?)
      && (t.outCloses > 0 ==> t.outCloses == 1 && t.sent == s.log.accepted && t.queue == [])
      && (t.owner.Exited? ==> t.outCloses == 1 && t.done)
  {
    DrainRun(s, steps);
  }

  /**
   No stuck drain: until the owner has exited it can move, or, when parked, a goroutine between
   its critical section and its channel operation can, and that operation unparks the owner.
   */
  lemma DrainingNeverStuck(s: State)
    requires Inv(s) && s.gracefulClose && !s.owner.Exited?
    ensures exists step ::
              && Next(s, step) != s
              && (IsOwnerStep(step) || (s.owner.Parked? && (step.Signal? || step.CloseAbortChannel?)))
  {
    match s.owner
    case AtLock => assert Next(s, OwnerLock).owner != s.owner;
    case Forwarding(_) => assert Next(s, OwnerSend).owner != s.owner;
    case Parked =>
      if s.wakeToken {
        assert Next(s, OwnerWake).owner != s.owner;
      } else if s.abortClosed {
        assert Next(s, OwnerWaitAborted).owner != s.owner;
      } else if s.log.signallers > 0 {
        assert Next(s, Signal).wakeToken != s.wakeToken;
      } else {
        assert Next(s, CloseAbortChannel).log.aborters != s.log.aborters;
      }
    case Closing0 => assert Next(s, OwnerFinish).owner != s.owner;
    case Closing1 => assert Next(s, OwnerFinish).owner != s.owner;
    case Closing2 => assert Next(s, OwnerFinish).owner != s.owner;
  }

  function AbortRemaining(s: State): nat {
    match s.owner
    case AtLock => 4
    case Forwarding(_) => 5
    case Parked => 5
    case Closing0 => 3
    case Closing1 => 2
    case Closing2 => 1
    case Exited => 0
  }

  lemma AbortStep(s: State, step: Step)
    requires Flags(s) && s.aborting
    ensures Next(s, step).aborting && Next(s, step).log.accepted == s.log.accepted
    ensures AbortRemaining(Next(s, step)) + (if OwnerMoved(s, step) then 1 else 0) <= AbortRemaining(s)
  {
    match step
    case Publish(_) =>
    case Signal =>
    case Close =>
    case Abort =>
    case CloseAbortChannel =>
    case OwnerLock =>
    case OwnerSend =>
    case OwnerSendAborted =>
    case OwnerWake =>
    case OwnerWaitAborted =>
    case OwnerFinish =>
  }

  lemma AbortSendsNothingNew(s: State, step: Step)
    requires s.aborting
    ensures |Next(s, step).sent| + |InFlight(Next(s, step))| <= |s.sent| + |InFlight(s)|
  {
    match step
    case Publish(_) =>
    case Signal =>
    case Close =>
    case Abort =>
    case CloseAbortChannel =>
    case OwnerLock =>
    case OwnerSend =>
    case OwnerSendAborted =>
    case OwnerWake =>
    case OwnerWaitAborted =>
    case OwnerFinish =>
  }

  lemma {:induction false} AbortRun(s: State, steps: seq<Step>)
    requires Inv(s) && s.aborting
    ensures Inv(Run(s, steps)) && Run(s, steps).log.accepted == s.log.accepted
    ensures AbortRemaining(Run(s, steps)) + OwnerMoves(s, steps) <= AbortRemaining(s)
    ensures |Run(s, steps).sent| <= |s.sent| + |InFlight(s)|
    decreases |steps|
  {
    if steps != [] {
      NextKeepsInv(s, steps[0]);
      AbortStep(s, steps[0]);
      AbortSendsNothingNew(s, steps[0]);
      AbortRun(Next(s, steps[0]), steps[1..]);
    }
  }

  /**
   Abort: however much is queued, at most five owner moves are left, at most the event already in
   the owner's hands is still sent, and what was sent stays a prefix of what was accepted.
   */
  lemma {:induction false} AbortEndsQuickly(s: State, steps: seq<Step>)
    requires Inv(s) && s.aborting
    ensures OwnerMoves(s, steps) <= 5
    ensures Run(s, steps).sent <= s.log.accepted
    ensures |Run(s, steps).sent| <= |s.sent| + 1
  {
    AbortRun(s, steps);
    SentIsPrefix(Run(s, steps));
  }

  /** Even with a stalled consumer the owner can leave once the abort channel is closed. */
  lemma AbortUnblocksOwner(s: State)
    requires s.abortClosed && s.aborting && !s.owner.Exited?
    ensures exists step :: IsOwnerStep(step) && !step.OwnerSend? && Next(s, step).owner != s.owner
  {
    match s.owner
    case AtLock => assert Next(s, OwnerLock).owner != s.owner;
    case Forwarding(_) => assert Next(s, OwnerSendAborted).owner != s.owner;
    case Parked => assert Next(s, OwnerWaitAborted).owner != s.owner;
    case Closing0 => assert Next(s, OwnerFinish).owner != s.owner;
    case Closing1 => assert Next(s, OwnerFinish).owner != s.owner;
    case Closing2 => assert Next(s, OwnerFinish).owner != s.owner;
  }

  /** The stream object itself; each method is one critical section or channel operation. */
  class Stream {
    var queue: seq<Queued>
    var progressInQueue: int
    var progressLimit: nat
    var nextSeq: nat
    var droppedProgress: nat
    var accepting: bool
    var gracefulClose: bool
    var aborting: bool
    var ownerExited: bool
    var wakeToken: bool
    var abortClosed: bool
    var outCloses: nat
    var done: bool
    var owner: Owner
    ghost var sent: seq<Native>
    ghost var log: Log

    ghost function View(): State
      reads this
    {
      State(queue, progressInQueue, progressLimit, nextSeq, droppedProgress, accepting, gracefulClose, aborting,
            ownerExited, wakeToken, abortClosed, outCloses, done, owner, sent, log)
    }

    ghost predicate Valid()
      reads this
    {
      Inv(View())
    }

    constructor (requestedLimit: int)
      ensures View() == Init(requestedLimit) && Valid()
    {
      queue, progressInQueue := [], 0;
      progressLimit := if requestedLimit <= 0 then 256 else requestedLimit;
      nextSeq, droppedProgress := 0, 0;
      accepting, gracefulClose, aborting, ownerExited := true, false, false, false;
      wakeToken, abortClosed, outCloses, done := false, false, 0, false;
      owner := AtLock;
      sent, log := [], Log(0, 0, [], 0, 0);
    }

    /** Publish up to the release of the mutex; an accepted event still owes its signal. */
    method PublishLocked(native: Native) returns (result: PublishResult)
      modifies this
      ensures View() == Next(old(View()), Publish(native))
      ensures result == PublishOutcome(old(View()), native)
    {
      if !accepting || aborting {
        log := Recorded(log, native, Rejected);
        return Rejected;
      }
      var critical := IsCritical(native.kind);
      if !critical {
        if progressInQueue >= progressLimit {
          droppedProgress := droppedProgress + 1;
          log := Recorded(log, native, DroppedProgress);
          return DroppedProgress;
        }
        progressInQueue := progressInQueue + 1;
      }
      nextSeq := nextSeq + 1;
      queue := queue + [Queued(native, critical, nextSeq)];
      log := Recorded(log, native, Accepted);
      result := Accepted;
    }

    /** signal: a non-blocking send on a one-slot channel. */
    method SignalOwner()
      requires log.signallers > 0
      modifies this
      ensures View() == Next(old(View()), Signal)
    {
      if !wakeToken {
        wakeToken := true;
      }
      log := log.(signallers := log.signallers - 1);
    }

    method CloseLocked()
      modifies this
      ensures View() == Next(old(View()), Close)
    {
      accepting := false;
      gracefulClose := true;
      log := log.(signallers := log.signallers + 1);
    }

    method AbortLocked()
      modifies this
      ensures View() == Next(old(View()), Abort)
    {
      accepting := false;
      aborting := true;
      log := log.(aborters := log.aborters + 1);
    }

    method CloseAbort()
      requires log.aborters > 0
      modifies this
      ensures View() == Next(old(View()), CloseAbortChannel)
    {
      abortClosed := true;
      log := log.(aborters := log.aborters - 1, signallers := log.signallers + 1);
    }

    /** One turn of the owner loop up to its select; the negative clamp of the source is dead code. */
    method OwnerTurn()
      requires Valid() && owner.AtLock?
      modifies this
      ensures View() == Next(old(View()), OwnerLock)
    {
      if aborting {
        queue := [];
        progressInQueue := 0;
        owner := Closing0;
        return;
      }
      var have := false;
      if |queue| > 0 {
        var next := queue[0];
        queue := queue[1..];
        if !next.critical {
          progressInQueue := if progressInQueue - 1 < 0 then 0 else progressInQueue - 1;
        }
        have := true;
        owner := Forwarding(next.event);
      }
      var draining := gracefulClose && !accepting;
      var empty := |queue| == 0;
      if have {
        return;
      }
      if draining && empty {
        owner := Closing0;
        return;
      }
      owner := Parked;
    }

    /** forward: the select between the public channel and the abort channel. */
    method Forward(consumerReady: bool, preferAbort: bool) returns (moved: bool)
      requires owner.Forwarding?
      modifies this
      ensures moved == (consumerReady || abortClosed)
      ensures var abortTaken := abortClosed && (preferAbort || !consumerReady);
        View() == if abortTaken then Next(old(View()), OwnerSendAborted)
                  else if consumerReady then Next(old(View()), OwnerSend) else old(View())
    {
      if abortClosed && (preferAbort || !consumerReady) {
        owner := Closing0;
        return true;
      }
      if consumerReady {
        sent := sent + [owner.event];
        owner := AtLock;
      }
      moved := consumerReady;
    }

    /** The owner's idle select between the wake token and the abort channel. */
    method Wait(preferAbort: bool) returns (moved: bool)
      requires owner.Parked?
      modifies this
      ensures moved == (old(wakeToken) || abortClosed)
      ensures View() == if abortClosed && (preferAbort || !old(wakeToken)) then Next(old(View()), OwnerWaitAborted)
                        else Next(old(View()), OwnerWake)
    {
      moved := wakeToken || abortClosed;
      if abortClosed && (preferAbort || !wakeToken) {
        owner := Closing0;
      } else if wakeToken {
        wakeToken := false;
        owner := AtLock;
      }
    }

    /** finish, one action at a time: mark the owner gone, close the public channel, close done. */
    method FinishStep()
      requires owner.Closing0? || owner.Closing1? || owner.Closing2?
      modifies this
      ensures View() == Next(old(View()), OwnerFinish)
    {
      match owner {
        case Closing0 =>
          ownerExited := true;
          accepting := false;
          owner := Closing1;
        case Closing1 =>
          outCloses := outCloses + 1;
          owner := Closing2;
        case Closing2 =>
          done := true;
          owner := Exited;
      }
    }

    /** Any method that performs a step keeps the stream valid. */
    twostate lemma StepKeepsValid(step: Step)
      requires old(Valid()) && View() == Next(old(View()), step)
      ensures Valid()
    {
      NextKeepsInv(old(View()), step);
    }
  }
}
