/**
 The life of one decision message: the request that waits for it, and any number of calls that
 resolve, retry or expire it, serialised by an operation lock but interleaved with the parked
 requester (internal/supervisor/messages.go:43-309, 831-863, internal/supervisor/permission.go:273-429,
 internal/supervisor/runtime.go:255-286). Every change of the message goes through the router.
 */
module Decisions {
  import opened Text
  import opened Resolutions
  import opened Journal
  import opened Router

  /** Event committed with a snapshot of the message. */
  datatype Projection = QueuedEvent | AnsweredEvent | ExpiredEvent | FailedEvent

  /** Where the holder of the operation lock is; Idle when the lock is free. */
  datatype Work =
    | Idle
    // ResolveMessage
    | Checking(r: Resolution)
    | Freezing(r: Resolution)
    | Widening(r: Resolution)
    | Answering(r: Resolution)
    | Publishing
    | Notifying
    // resolveNativePermission
    | Intending(r: Resolution)
    | Announcing(r: Resolution)
    | Responding(r: Resolution)
    | Retrying
    | Requeueing
    | Recording(r: Resolution)
    | PublishingNative
    // expireOneMessage
    | ExpireChecking
    | Expiring
    | ExpirePublishing
    // RequestMessage
    | Asking
    | Queueing
    | Registering
    | Setting

  /** The call that enqueued the message: a request that will park, or the bridge from an adapter, which does not. */
  datatype Asker = Waiting | Busy | Parked | Done

  /** What has been done to the outside world for this message. */
  datatype Log = Log(events: seq<Projection>, frozen: seq<Raw>, widened: seq<Decision>, responses: seq<Decision>,
                     accepted: seq<Decision>)

  /** Native tells that the payload names a native permission, waits that a request asked for the message. */
  datatype State = State(msg: Message, native: bool, waits: bool, requested: seq<string>, scope: seq<string>, work: Work, asker: Asker,
                         registered: bool, token: bool, log: Log)

  datatype Step =
    | Resolve(submitted: Resolution)
    | Expire
    | Ask
    | Advance(ok: bool, now: int)
    | Respond(reached: bool, accepted: bool)
    | PublishFails(now: int, appended: bool, committed: bool)
    | Wake
    | Cancel
    | ScopeGrows(extra: seq<string>)
    | Crash

  function Commit(s: State, e: Projection, ok: bool): State {
    if ok then s.(log := s.log.(events := s.log.events + [e])) else s
  }

  function Release(s: State): State {
    s.(work := Idle)
  }

  function Goto(s: State, w: Work): State {
    s.(work := w)
  }

  predicate AllHeld(requested: seq<string>, scope: seq<string>) {
    forall p :: p in requested ==> p in scope
  }

  /** approveScope as far as this message goes: held patterns are not added again. */
  function Grow(scope: seq<string>, requested: seq<string>): seq<string> {
    if AllHeld(requested, scope) then scope else scope + requested
  }

  function Freezes(s: State, r: Resolution, now: int): Attempt {
    PrepareFreeze(Some(Tagged(r, [])), s.msg, now)
  }

  /** The resolution is refused, was frozen already with the same meaning, or is frozen now. */
  function AfterFreeze(s: State, a: Attempt, r: Resolution, ok: bool, next: Work): State {
    match a
    case Refuse => Release(s)
    case Keep => Goto(s, next)
    case Write(m) =>
      if ok then s.(msg := m, work := next, log := s.log.(frozen := s.log.frozen + [Tagged(r, [])])) else Release(s)
  }

  function DoFreeze(s: State, r: Resolution, ok: bool, now: int, next: Work): State {
    AfterFreeze(s, Freezes(s, r, now), r, ok, next)
  }

  function DoWiden(s: State, r: Resolution, ok: bool): State {
    if s.msg.head.kind == ScopeExpansionRequest && r.decision.Some? && r.decision.value.allowed then
      if ok then
        s.(scope := Grow(s.scope, s.requested), work := Answering(r),
           log := s.log.(widened := s.log.widened + [r.decision.value]))
      else Release(s)
    else Goto(s, Answering(r))
  }

  function DoTransition(s: State, to: Status, argument: Argument, ok: bool, now: int, next: Work): State {
    var a := PrepareTransition(to, NoMode, argument, None, s.msg, now);
    if a.Write? && ok then s.(msg := a.candidate, work := next) else Release(s)
  }

  function DoRecord(s: State, to: Option<Status>, ok: bool, now: int, next: Work): State {
    var a := PrepareRecord(to, [], s.msg, now);
    if a.Write? && ok then s.(msg := a.candidate, work := next) else Release(s)
  }

  function Notify(s: State): State {
    s.(token := s.token || s.registered, registered := false)
  }

  function Finish(s: State): State {
    s.(asker := Done, registered := false, work := Idle)
  }

  /** The frozen bytes handed to Transition. */
  function FrozenBytes(m: Message): Argument {
    if m.resolution.Some? then Given(m.resolution.value) else Nil
  }

  function AdvanceResolve(s: State, ok: bool, now: int): State {
    match s.work
    case Checking(r) =>
      if !Valid(s.msg.head.kind, r) || IsTerminal(s.msg.status) then Release(s)
      else Goto(s, if s.native then Intending(r) else Freezing(r))
    case Freezing(r) => DoFreeze(s, r, ok, now, Widening(r))
    case Widening(r) => DoWiden(s, r, ok)
    case Answering(r) => DoTransition(s, Answered, FrozenBytes(s.msg), ok, now, Publishing)
    case Publishing => if ok then Goto(Commit(s, AnsweredEvent, ok), Notifying) else Release(s)
    case Notifying => Release(Notify(s))
    case _ => s
  }

  function AdvanceNative(s: State, ok: bool, now: int): State {
    match s.work
    case Intending(r) => DoFreeze(s, r, ok, now, Announcing(r))
    case Announcing(r) => if ok then Goto(Commit(s, QueuedEvent, ok), Responding(r)) else Release(s)
    case Retrying => DoRecord(s, None, ok, now, Requeueing)
    case Requeueing => Release(Commit(s, QueuedEvent, ok))
    case Recording(r) => DoRecord(s, Some(Answered), ok, now, PublishingNative)
    case PublishingNative => Release(Commit(s, AnsweredEvent, ok))
    case _ => s
  }

  function AdvanceExpire(s: State, ok: bool, now: int): State {
    match s.work
    case ExpireChecking => if IsTerminal(s.msg.status) || s.msg.resolution.Some? then Release(s) else Goto(s, Expiring)
    case Expiring => DoTransition(s, Expired, Nil, ok, now, ExpirePublishing)
    case ExpirePublishing => if ok then Goto(Commit(s, ExpiredEvent, ok), Notifying) else Release(s)
    case _ => s
  }

  function AdvanceAsk(s: State, ok: bool): State {
    match s.work
    case Asking => if IsTerminal(s.msg.status) then Finish(s) else Goto(s, Queueing)
    case Queueing => if ok then Goto(Commit(s, QueuedEvent, ok), if s.waits then Registering else Setting) else Finish(s)
    case Registering => Goto(s, Setting).(registered := true, token := false)
    case Setting => if s.waits && ok && !IsTerminal(s.msg.status) then s.(asker := Parked, work := Idle) else Finish(s)
    case _ => s
  }

  function DoAdvance(s: State, ok: bool, now: int): State {
    match s.work
    case Idle => s
    case Checking(_) => AdvanceResolve(s, ok, now)
    case Freezing(_) => AdvanceResolve(s, ok, now)
    case Widening(_) => AdvanceResolve(s, ok, now)
    case Answering(_) => AdvanceResolve(s, ok, now)
    case Publishing => AdvanceResolve(s, ok, now)
    case Notifying => AdvanceResolve(s, ok, now)
    case Intending(_) => AdvanceNative(s, ok, now)
    case Announcing(_) => AdvanceNative(s, ok, now)
    case Responding(_) => s
    case Retrying => AdvanceNative(s, ok, now)
    case Requeueing => AdvanceNative(s, ok, now)
    case Recording(_) => AdvanceNative(s, ok, now)
    case PublishingNative => AdvanceNative(s, ok, now)
    case ExpireChecking => AdvanceExpire(s, ok, now)
    case Expiring => AdvanceExpire(s, ok, now)
    case ExpirePublishing => AdvanceExpire(s, ok, now)
    case Asking => AdvanceAsk(s, ok)
    case Queueing => AdvanceAsk(s, ok)
    case Registering => AdvanceAsk(s, ok)
    case Setting => AdvanceAsk(s, ok)
  }

  /** The binding, which refuses a message without an attempt, or the option list may stop the call short of the adapter. */
  function DoRespond(s: State, reached: bool, accepted: bool): State {
    match s.work
    case Responding(r) =>
      if !reached || s.msg.attempt <= 0 || r.decision.None? then Goto(s, Retrying)
      else
        s.(work := if accepted then Recording(r) else Retrying,
           log := s.log.(responses := s.log.responses + [r.decision.value],
                         accepted := if accepted then s.log.accepted + [r.decision.value] else s.log.accepted))
    case _ => s
  }

  /** A request fails its message when the question cannot be published; the bridge leaves it pending. */
  function DoPublishFails(s: State, now: int, appended: bool, committed: bool): State {
    if s.work != Setting then s
    else if !s.waits then Finish(s)
    else
      var a := PrepareTransition(Failed, NoMode, Nil, Some([]), s.msg, now);
      if a.Write? && appended then Finish(Commit(s.(msg := a.candidate), FailedEvent, committed)) else Finish(s)
  }

  function Next(s: State, step: Step): State {
    match step
    case Resolve(r) => if s.work == Idle then Goto(s, Checking(r)) else s
    case Expire => if s.work == Idle then Goto(s, ExpireChecking) else s
    case Ask => if s.work == Idle && s.asker == Waiting then s.(work := Asking, asker := Busy) else s
    case Advance(ok, now) => DoAdvance(s, ok, now)
    case Respond(reached, accepted) => DoRespond(s, reached, accepted)
    case PublishFails(now, appended, committed) => DoPublishFails(s, now, appended, committed)
    case Wake => if s.asker == Parked && s.token then s.(asker := Done, token := false, registered := false) else s
    case Cancel => if s.asker == Parked then s.(asker := Done, registered := false) else s
    case ScopeGrows(extra) => s.(scope := s.scope + extra)
    case Crash => s.(work := Idle, asker := Done, registered := false, token := false)
  }

  function Run(s: State, steps: seq<Step>): State {
    if steps == [] then s else Next(Run(s, steps[..|steps| - 1]), steps[|steps| - 1])
  }

  /**
   A decision message just enqueued: nobody has touched it. A request enqueues without an attempt
   number; the bridge enqueues only native permissions.
   */
  predicate Initial(s: State) {
    && (s.waits ==> s.msg.attempt == 0) && (!s.waits ==> s.native) && (s.native ==> s.msg.head.kind == PermissionRequest)
    && IsDecisionType(s.msg.head.kind) && s.msg.status == Queued && s.msg.resolution.None? && s.msg.mode == NoMode
    && s.work == Idle && s.asker == Waiting && !s.registered && !s.token
    && s.log == Log([], [], [], [], [])
  }

  // ----- what holds throughout -----

  predicate Means(m: Message, r: Resolution) {
    m.resolution.Some? && DecodeResolutionForType(m.head.kind, m.resolution.value) == Passes(r)
  }

  /** What the holder of the lock knows about the message. */
  predicate Knows(m: Message, w: Work) {
    match w
    case Idle => true
    case Checking(_) => true
    case Freezing(r) => m.status == Queued && Valid(m.head.kind, r)
    case Widening(r) => m.status == Queued && Means(m, r)
    case Answering(r) => m.status == Queued && Means(m, r)
    case Publishing => m.status == Answered
    case Notifying => m.status == Answered || m.status == Expired
    case Intending(r) => m.status == Queued && Valid(m.head.kind, r)
    case Announcing(r) => m.status == Queued && Means(m, r)
    case Responding(r) => m.status == Queued && Means(m, r)
    case Retrying => m.status == Queued && m.resolution.Some?
    case Requeueing => m.status == Queued && m.resolution.Some?
    case Recording(r) => m.status == Queued && Means(m, r)
    case PublishingNative => m.status == Answered
    case ExpireChecking => true
    case Expiring => m.status == Queued && m.resolution.None?
    case ExpirePublishing => m.status == Expired
    case Asking => true
    case Queueing => m.status == Queued
    case Registering => m.status == Queued
    case Setting => m.status == Queued
  }

  predicate MessageFits(m: Message) {
    && IsDecisionType(m.head.kind) && m.mode == NoMode
    && (m.status == Queued || m.status == Answered || m.status == Expired || m.status == Failed)
    && (m.status == Answered ==> m.resolution.Some?)
    && (m.status == Expired ==> m.resolution.None?)
  }

  predicate FrozenOnce(s: State) {
    s.log.frozen == if s.msg.resolution.Some? then [s.msg.resolution.value] else []
  }

  /** Everything done outside was done under the frozen decision. */
  predicate Authorized(s: State) {
    && (forall d :: d in s.log.widened ==> d.allowed && Means(s.msg, NewDecision(d)))
    && (forall d :: d in s.log.responses ==> Means(s.msg, NewDecision(d)))
    && (s.log.widened != [] ==> AllHeld(s.requested, s.scope))
  }

  predicate NoQueuedAfterAnswered(events: seq<Projection>) {
    forall i, j :: 0 <= i < j < |events| && events[i] == AnsweredEvent ==> events[j] != QueuedEvent
  }

  predicate EventsFit(s: State) {
    NoQueuedAfterAnswered(s.log.events) && (AnsweredEvent in s.log.events ==> s.msg.status == Answered)
  }

  predicate AskerFits(s: State) {
    && (s.asker == Busy <==> s.work == Asking || s.work == Queueing || s.work == Registering || s.work == Setting)
    && (s.registered ==> s.asker == Parked || s.work == Setting)
    && (s.token ==> IsTerminal(s.msg.status) && !s.registered)
  }

  predicate Inv(s: State) {
    MessageFits(s.msg) && Knows(s.msg, s.work) && FrozenOnce(s) && Authorized(s) && EventsFit(s) && AskerFits(s)
  }

  // ----- steps on the message -----

  lemma FreezeEffect(s: State, r: Resolution, now: int)
    requires Inv(s) && s.msg.status == Queued && Valid(s.msg.head.kind, r)
    ensures var a := Freezes(s, r, now);
      && (a.Write? ==> s.msg.resolution.None? &&
                       a.candidate == s.msg.(resolution := Some(Tagged(r, [])), updatedAt := now) && Means(a.candidate, r))
      && (a.Keep? ==> Means(s.msg, r))
  {
    var raw := Tagged(r, []);
    NormalizeKeepsMeaning(s.msg.head.kind, raw);
    if s.msg.resolution.Some? {
      NormalFormsDecide(s.msg.head.kind, s.msg.resolution.value, raw);
      EqualIffSameMeaning(s.msg.head.kind, s.msg.resolution.value, raw);
    }
  }

  lemma FreezeKeepsInv(s: State, r: Resolution, ok: bool, now: int, next: Work)
    requires Inv(s) && s.msg.status == Queued && Valid(s.msg.head.kind, r)
    requires (s.work == Freezing(r) && next == Widening(r)) || (s.work == Intending(r) && next == Announcing(r))
    ensures Inv(DoFreeze(s, r, ok, now, next))
  {
    FreezeEffect(s, r, now);
  }

  lemma DecidedAs(m: Message, r: Resolution)
    requires Means(m, r) && r.decision.Some?
    ensures Means(m, NewDecision(r.decision.value))
  {
    DecodedIsValid(m.head.kind, m.resolution.value);
    if m.head.kind == Question {
      ValidAnswers(r);
    } else {
      ValidDecisions(m.head.kind, r);
    }
  }

  lemma WidenKeepsInv(s: State, r: Resolution, ok: bool)
    requires Inv(s) && s.work == Widening(r)
    ensures Inv(DoWiden(s, r, ok))
  {
    if r.decision.Some? {
      DecidedAs(s.msg, r);
    }
  }

  /** The lock passes to another stage with the message untouched. */
  lemma GotoKeepsInv(s: State, w: Work)
    requires Inv(s) && Knows(s.msg, w) && AskerFits(Goto(s, w))
    ensures Inv(Goto(s, w))
  {
  }

  lemma CommitKeepsInv(s: State, e: Projection, ok: bool)
    requires Inv(s) && (e == QueuedEvent ==> s.msg.status == Queued) && (e == AnsweredEvent ==> s.msg.status == Answered)
    ensures Inv(Commit(s, e, ok))
  {
  }

  lemma PublishKeepsInv(s: State, e: Projection, ok: bool, w: Work)
    requires Inv(s) && (e == QueuedEvent ==> s.msg.status == Queued) && (e == AnsweredEvent ==> s.msg.status == Answered)
    requires Knows(s.msg, w) && AskerFits(Goto(s, w))
    ensures Inv(Goto(Commit(s, e, ok), w))
  {
    CommitKeepsInv(s, e, ok);
    GotoKeepsInv(Commit(s, e, ok), w);
  }

  /** A queued message gets a new version that keeps its resolution. */
  lemma MessageMoves(s: State, m: Message, w: Work)
    requires Inv(s) && s.msg.status == Queued && m.head == s.msg.head && m.resolution == s.msg.resolution
    requires MessageFits(m) && Knows(m, w) && AskerFits(s.(msg := m, work := w))
    ensures Inv(s.(msg := m, work := w))
  {
  }

  lemma TransitionEffect(m: Message, to: Status, argument: Argument, cause: Option<string>, now: int)
    requires m.status == Queued && (to == Answered || to == Expired || to == Failed)
    requires Replaced(argument, m.resolution) == m.resolution
    ensures PrepareTransition(to, NoMode, argument, cause, m, now) ==
            Write(m.(status := to, updatedAt := now, error := if cause.Some? then cause.value else m.error))
  {
  }

  lemma AnsweringKeepsInv(s: State, r: Resolution, ok: bool, now: int)
    requires Inv(s) && s.work == Answering(r)
    ensures Inv(DoTransition(s, Answered, FrozenBytes(s.msg), ok, now, Publishing))
  {
    TransitionEffect(s.msg, Answered, FrozenBytes(s.msg), None, now);
    if ok {
      MessageMoves(s, s.msg.(status := Answered, updatedAt := now), Publishing);
    } else {
      GotoKeepsInv(s, Idle);
    }
  }

  lemma ExpiringKeepsInv(s: State, ok: bool, now: int)
    requires Inv(s) && s.work == Expiring
    ensures Inv(DoTransition(s, Expired, Nil, ok, now, ExpirePublishing))
  {
    TransitionEffect(s.msg, Expired, Nil, None, now);
    if ok {
      MessageMoves(s, s.msg.(status := Expired, updatedAt := now), ExpirePublishing);
    } else {
      GotoKeepsInv(s, Idle);
    }
  }

  lemma RecordKeepsInv(s: State, to: Option<Status>, ok: bool, now: int, next: Work)
    requires Inv(s) && s.msg.status == Queued && s.msg.resolution.Some? && s.asker != Busy
    requires (to == None && next == Requeueing) || (to == Some(Answered) && next == PublishingNative)
    ensures Inv(DoRecord(s, to, ok, now, next))
  {
    var a := PrepareRecord(to, [], s.msg, now);
    if ok {
      MessageMoves(s, a.candidate, next);
    } else {
      GotoKeepsInv(s, Idle);
    }
  }

  lemma NotifyKeepsInv(s: State)
    requires Inv(s) && s.work == Notifying
    ensures Inv(Release(Notify(s)))
  {
  }

  lemma CheckingKeepsInv(s: State, r: Resolution, ok: bool, now: int)
    requires Inv(s) && s.work == Checking(r)
    ensures Inv(AdvanceResolve(s, ok, now))
  {
    GotoKeepsInv(s, AdvanceResolve(s, ok, now).work);
  }

  lemma PublishingKeepsInv(s: State, ok: bool, now: int)
    requires Inv(s) && s.work == Publishing
    ensures Inv(AdvanceResolve(s, ok, now))
  {
    PublishKeepsInv(s, AnsweredEvent, ok, if ok then Notifying else Idle);
  }

  lemma AdvanceResolveKeepsInv(s: State, ok: bool, now: int)
    requires Inv(s)
    ensures Inv(AdvanceResolve(s, ok, now))
  {
    match s.work {
      case Checking(r) => CheckingKeepsInv(s, r, ok, now);
      case Freezing(r) => FreezeKeepsInv(s, r, ok, now, Widening(r));
      case Widening(r) => WidenKeepsInv(s, r, ok);
      case Answering(r) => AnsweringKeepsInv(s, r, ok, now);
      case Publishing => PublishingKeepsInv(s, ok, now);
      case Notifying => NotifyKeepsInv(s);
      case _ =>
    }
  }

  lemma AnnouncingKeepsInv(s: State, r: Resolution, ok: bool, now: int)
    requires Inv(s) && s.work == Announcing(r)
    ensures Inv(AdvanceNative(s, ok, now))
  {
    PublishKeepsInv(s, QueuedEvent, ok, if ok then Responding(r) else Idle);
  }

  lemma RecordingKeepsInv(s: State, ok: bool, now: int)
    requires Inv(s) && (s.work == Retrying || s.work.Recording?)
    ensures Inv(AdvanceNative(s, ok, now))
  {
    if s.work == Retrying {
      RecordKeepsInv(s, None, ok, now, Requeueing);
    } else {
      RecordKeepsInv(s, Some(Answered), ok, now, PublishingNative);
    }
  }

  lemma AdvanceNativeKeepsInv(s: State, ok: bool, now: int)
    requires Inv(s)
    ensures Inv(AdvanceNative(s, ok, now))
  {
    match s.work {
      case Intending(r) => FreezeKeepsInv(s, r, ok, now, Announcing(r));
      case Announcing(r) => AnnouncingKeepsInv(s, r, ok, now);
      case Retrying => RecordingKeepsInv(s, ok, now);
      case Requeueing => PublishKeepsInv(s, QueuedEvent, ok, Idle);
      case Recording(r) => RecordingKeepsInv(s, ok, now);
      case PublishingNative => PublishKeepsInv(s, AnsweredEvent, ok, Idle);
      case _ =>
    }
  }

  lemma AdvanceExpireKeepsInv(s: State, ok: bool, now: int)
    requires Inv(s)
    ensures Inv(AdvanceExpire(s, ok, now))
  {
    match s.work {
      case ExpireChecking => GotoKeepsInv(s, AdvanceExpire(s, ok, now).work);
      case Expiring => ExpiringKeepsInv(s, ok, now);
      case ExpirePublishing =>
        PublishKeepsInv(s, ExpiredEvent, ok, if ok then Notifying else Idle);
      case _ =>
    }
  }

  lemma FinishKeepsInv(s: State)
    requires Inv(s) && s.asker == Busy
    ensures Inv(Finish(s))
  {
  }

  /** Only the bookkeeping of the waiting call changes. */
  lemma AskerMoves(s: State, w: Work, asker: Asker, registered: bool, token: bool)
    requires Inv(s) && Knows(s.msg, w)
    requires AskerFits(s.(work := w, asker := asker, registered := registered, token := token))
    ensures Inv(s.(work := w, asker := asker, registered := registered, token := token))
  {
  }

  lemma SettingKeepsInv(s: State, ok: bool)
    requires Inv(s) && s.work == Setting
    ensures Inv(AdvanceAsk(s, ok))
  {
    if s.waits && ok {
      AskerMoves(s, Idle, Parked, s.registered, s.token);
    } else {
      FinishKeepsInv(s);
    }
  }

  lemma AdvanceAskKeepsInv(s: State, ok: bool)
    requires Inv(s)
    ensures Inv(AdvanceAsk(s, ok))
  {
    match s.work {
      case Asking =>
        if IsTerminal(s.msg.status) {
          FinishKeepsInv(s);
        } else {
          GotoKeepsInv(s, Queueing);
        }
      case Queueing =>
        if ok {
          PublishKeepsInv(s, QueuedEvent, ok, if s.waits then Registering else Setting);
        } else {
          FinishKeepsInv(s);
        }
      case Registering => AskerMoves(s, Setting, Busy, true, false);
      case Setting => SettingKeepsInv(s, ok);
      case _ =>
    }
  }

  lemma RespondKeepsInv(s: State, reached: bool, accepted: bool)
    requires Inv(s)
    ensures Inv(DoRespond(s, reached, accepted))
  {
    match s.work
    case Responding(r) =>
      if r.decision.Some? {
        DecidedAs(s.msg, r);
      }
    case _ =>
  }

  lemma PublishFailsKeepsInv(s: State, now: int, appended: bool, committed: bool)
    requires Inv(s)
    ensures Inv(DoPublishFails(s, now, appended, committed))
  {
    if s.work == Setting {
      TransitionEffect(s.msg, Failed, Nil, Some([]), now);
      var t := s.(msg := s.msg.(status := Failed, updatedAt := now, error := []));
      if appended {
        MessageFailsInSetup(s, t);
        CommitOther(t, committed);
      }
      FinishKeepsInv(s);
    }
  }

  lemma MessageFailsInSetup(s: State, t: State)
    requires Inv(s) && s.work == Setting && t == s.(msg := t.msg) && t.msg.status == Failed
    requires t.msg.head == s.msg.head && t.msg.resolution == s.msg.resolution && t.msg.mode == s.msg.mode
    ensures Inv(Finish(t)) && AnsweredEvent !in t.log.events
  {
  }

  lemma CommitOther(t: State, committed: bool)
    requires Inv(Finish(t)) && AnsweredEvent !in t.log.events
    ensures Inv(Finish(Commit(t, FailedEvent, committed)))
  {
  }

  lemma AdvanceKeepsInv(s: State, ok: bool, now: int)
    requires Inv(s)
    ensures Inv(DoAdvance(s, ok, now))
  {
    AdvanceResolveKeepsInv(s, ok, now);
    AdvanceNativeKeepsInv(s, ok, now);
    AdvanceExpireKeepsInv(s, ok, now);
    AdvanceAskKeepsInv(s, ok);
  }

  lemma ScopeGrowsKeepsInv(s: State, extra: seq<string>)
    requires Inv(s)
    ensures Inv(Next(s, ScopeGrows(extra)))
  {
  }

  lemma NextKeepsInv(s: State, step: Step)
    requires Inv(s)
    ensures Inv(Next(s, step))
  {
    match step {
      case Resolve(r) =>
        if s.work == Idle {
          GotoKeepsInv(s, Checking(r));
        }
      case Expire =>
        if s.work == Idle {
          GotoKeepsInv(s, ExpireChecking);
        }
      case Ask =>
        if s.work == Idle && s.asker == Waiting {
          AskerMoves(s, Asking, Busy, s.registered, s.token);
        }
      case Advance(ok, now) => AdvanceKeepsInv(s, ok, now);
      case Respond(reached, accepted) => RespondKeepsInv(s, reached, accepted);
      case PublishFails(now, appended, committed) => PublishFailsKeepsInv(s, now, appended, committed);
      case Wake =>
        if s.asker == Parked && s.token {
          AskerMoves(s, s.work, Done, false, false);
        }
      case Cancel =>
        if s.asker == Parked {
          AskerMoves(s, s.work, Done, false, s.token);
        }
      case ScopeGrows(extra) => ScopeGrowsKeepsInv(s, extra);
      case Crash => AskerMoves(s, Idle, Done, false, false);
    }
  }

  lemma {:induction false} RunKeepsInv(s: State, steps: seq<Step>)
    requires Inv(s)
    ensures Inv(Run(s, steps))
  {
    if steps != [] {
      RunKeepsInv(s, steps[..|steps| - 1]);
      NextKeepsInv(Run(s, steps[..|steps| - 1]), steps[|steps| - 1]);
    }
  }

  /**
   Whatever calls interleave, fail, are retried or are cut off by a crash: at most one resolution is
   ever frozen, an answer carries exactly that one, the scope is widened only under a frozen
   allowance, an expired message has no frozen resolution, and every native response carries the
   frozen decision, so all of them are the same.
   */
  lemma {:induction false} OneResolution(s: State, steps: seq<Step>)
    requires Initial(s)
    ensures var t := Run(s, steps);
      && |t.log.frozen| <= 1
      && (t.msg.status == Answered ==> t.log.frozen != [] && t.msg.resolution == Some(t.log.frozen[0]))
      && (t.log.frozen != [] ==> t.msg.status != Expired && t.msg.resolution == Some(t.log.frozen[0]))
      && (forall d :: d in t.log.widened ==> d.allowed && Means(t.msg, NewDecision(d)))
      && (forall d, e :: d in t.log.responses && e in t.log.responses ==> d == e)
      && (forall d :: d in t.log.responses ==> Means(t.msg, NewDecision(d)))
  {
    RunKeepsInv(s, steps);
    var t := Run(s, steps);
    forall d, e | d in t.log.responses && e in t.log.responses
      ensures d == e
    {
      assert NewDecision(d) == NewDecision(e);
    }
  }

  /** Once the request was granted, granting it again on a retry adds nothing to the scope. */
  lemma {:induction false} RetryDoesNotWidenAgain(s: State, steps: seq<Step>, r: Resolution, ok: bool)
    requires Initial(s) && Run(s, steps).work == Widening(r) && Run(s, steps).log.widened != []
    ensures var t := Run(s, steps); DoWiden(t, r, ok).scope == t.scope
  {
    RunKeepsInv(s, steps);
  }

  /** The queued projection is never committed behind the answered one. */
  lemma {:induction false} QueuedNeverAfterAnswered(s: State, steps: seq<Step>)
    requires Initial(s)
    ensures NoQueuedAfterAnswered(Run(s, steps).log.events)
  {
    RunKeepsInv(s, steps);
  }

  // ----- who waits for what -----

  predicate NativeWork(w: Work) {
    w.Intending? || w.Announcing? || w.Responding? || w.Retrying? || w.Requeueing? || w.Recording? || w.PublishingNative?
  }

  predicate OrdinaryWork(w: Work) {
    w.Freezing? || w.Widening? || w.Answering? || w.Publishing?
  }

  /** A frozen resolution decodes. */
  predicate Readable(m: Message) {
    m.resolution.Some? ==> DecodeResolutionForType(m.head.kind, m.resolution.value).Passes?
  }

  /** Where the lock holder can be, by the kind of message. */
  predicate WorkFits(s: State) {
    && (NativeWork(s.work) ==> s.native) && (OrdinaryWork(s.work) ==> !s.native)
    && (s.work.Recording? || s.work == PublishingNative ==> s.msg.attempt > 0)
    && (s.asker == Parked || s.registered || s.work == Registering ==> s.waits)
  }

  /** A request's message has no attempt number; without one nothing is sent and no native permission is answered. */
  predicate MessageBound(s: State) {
    && (s.waits ==> s.msg.attempt == 0) && (s.native ==> s.msg.head.kind == PermissionRequest)
    && (s.msg.attempt <= 0 ==> s.log.responses == [])
    && (s.native && s.msg.attempt <= 0 ==> s.msg.status != Answered)
    && Readable(s.msg)
  }

  predicate Bound(s: State) {
    WorkFits(s) && MessageBound(s)
  }

  predicate SameOrigin(s: State, t: State) {
    t.native == s.native && t.waits == s.waits && t.requested == s.requested && t.msg.head == s.msg.head
  }

  /** The next state is bound too, and it is the same message. */
  predicate StaysBound(s: State, t: State) {
    Bound(t) && SameOrigin(s, t)
  }

  lemma FreezeStaysBound(s: State, r: Resolution, ok: bool, now: int, next: Work)
    requires Inv(s) && Bound(s) && s.msg.status == Queued && Valid(s.msg.head.kind, r)
    requires (s.work == Freezing(r) && next == Widening(r)) || (s.work == Intending(r) && next == Announcing(r))
    ensures StaysBound(s, DoFreeze(s, r, ok, now, next))
  {
    FreezeEffect(s, r, now);
  }

  lemma TransitionStaysBound(s: State, to: Status, argument: Argument, ok: bool, now: int, next: Work)
    requires Bound(s) && s.msg.status == Queued && Replaced(argument, s.msg.resolution) == s.msg.resolution
    requires (to == Answered && next == Publishing && !s.native) || (to == Expired && next == ExpirePublishing)
    ensures StaysBound(s, DoTransition(s, to, argument, ok, now, next))
  {
    TransitionEffect(s.msg, to, argument, None, now);
  }

  /** The lock passes on, the message and what was sent stay. */
  lemma GotoStaysBound(s: State, t: State)
    requires Bound(s) && SameOrigin(s, t) && t.msg == s.msg && t.log.responses == s.log.responses && WorkFits(t)
    ensures StaysBound(s, t)
  {
  }

  lemma WidenStaysBound(s: State, r: Resolution, ok: bool)
    requires Bound(s) && s.work == Widening(r)
    ensures StaysBound(s, DoWiden(s, r, ok))
  {
    GotoStaysBound(s, DoWiden(s, r, ok));
  }

  lemma ResolveStaysBound(s: State, ok: bool, now: int)
    requires Inv(s) && Bound(s)
    ensures StaysBound(s, AdvanceResolve(s, ok, now))
  {
    match s.work {
      case Checking(r) => GotoStaysBound(s, AdvanceResolve(s, ok, now));
      case Freezing(r) => FreezeStaysBound(s, r, ok, now, Widening(r));
      case Widening(r) => WidenStaysBound(s, r, ok);
      case Answering(r) => TransitionStaysBound(s, Answered, FrozenBytes(s.msg), ok, now, Publishing);
      case Publishing => GotoStaysBound(s, AdvanceResolve(s, ok, now));
      case Notifying => GotoStaysBound(s, Release(Notify(s)));
      case _ =>
    }
  }

  lemma RecordStaysBound(s: State, ok: bool, now: int)
    requires Bound(s) && (s.work == Retrying || s.work.Recording?)
    ensures StaysBound(s, AdvanceNative(s, ok, now))
  {
  }

  lemma NativeStaysBound(s: State, ok: bool, now: int)
    requires Inv(s) && Bound(s)
    ensures StaysBound(s, AdvanceNative(s, ok, now))
  {
    match s.work {
      case Intending(r) => FreezeStaysBound(s, r, ok, now, Announcing(r));
      case Announcing(r) => GotoStaysBound(s, AdvanceNative(s, ok, now));
      case Retrying => RecordStaysBound(s, ok, now);
      case Requeueing => GotoStaysBound(s, AdvanceNative(s, ok, now));
      case Recording(r) => RecordStaysBound(s, ok, now);
      case PublishingNative => GotoStaysBound(s, AdvanceNative(s, ok, now));
      case _ =>
    }
  }

  lemma ExpireStaysBound(s: State, ok: bool, now: int)
    requires Inv(s) && Bound(s)
    ensures StaysBound(s, AdvanceExpire(s, ok, now))
  {
    match s.work {
      case ExpireChecking => GotoStaysBound(s, AdvanceExpire(s, ok, now));
      case Expiring => TransitionStaysBound(s, Expired, Nil, ok, now, ExpirePublishing);
      case ExpirePublishing => GotoStaysBound(s, AdvanceExpire(s, ok, now));
      case _ =>
    }
  }

  lemma AskStaysBound(s: State, ok: bool)
    requires Bound(s)
    ensures StaysBound(s, AdvanceAsk(s, ok))
  {
    match s.work {
      case Asking => GotoStaysBound(s, AdvanceAsk(s, ok));
      case Queueing => GotoStaysBound(s, AdvanceAsk(s, ok));
      case Registering => GotoStaysBound(s, AdvanceAsk(s, ok));
      case Setting => SettingStaysBound(s, ok);
      case _ =>
    }
  }

  lemma SettingStaysBound(s: State, ok: bool)
    requires Bound(s) && s.work == Setting
    ensures StaysBound(s, AdvanceAsk(s, ok))
  {
    GotoStaysBound(s, AdvanceAsk(s, ok));
  }

  lemma AdvanceStaysBound(s: State, ok: bool, now: int)
    requires Inv(s) && Bound(s)
    ensures StaysBound(s, DoAdvance(s, ok, now))
  {
    ResolveStaysBound(s, ok, now);
    NativeStaysBound(s, ok, now);
    ExpireStaysBound(s, ok, now);
    AskStaysBound(s, ok);
  }

  lemma RespondStaysBound(s: State, reached: bool, accepted: bool)
    requires Bound(s)
    ensures StaysBound(s, DoRespond(s, reached, accepted))
  {
  }

  lemma PublishFailsStaysBound(s: State, now: int, appended: bool, committed: bool)
    requires Inv(s) && Bound(s)
    ensures StaysBound(s, DoPublishFails(s, now, appended, committed))
  {
    if s.work == Setting {
      TransitionEffect(s.msg, Failed, Nil, Some([]), now);
    }
  }

  lemma NextStaysBound(s: State, step: Step)
    requires Inv(s) && Bound(s)
    ensures StaysBound(s, Next(s, step))
  {
    match step {
      case Resolve(r) => GotoStaysBound(s, Next(s, step));
      case Expire => GotoStaysBound(s, Next(s, step));
      case Ask => GotoStaysBound(s, Next(s, step));
      case Advance(ok, now) => AdvanceStaysBound(s, ok, now);
      case Respond(reached, accepted) => RespondStaysBound(s, reached, accepted);
      case PublishFails(now, appended, committed) => PublishFailsStaysBound(s, now, appended, committed);
      case Wake => GotoStaysBound(s, Next(s, step));
      case Cancel => GotoStaysBound(s, Next(s, step));
      case ScopeGrows(extra) => GotoStaysBound(s, Next(s, step));
      case Crash => GotoStaysBound(s, Next(s, step));
    }
  }

  lemma {:induction false} RunStaysBound(s: State, steps: seq<Step>)
    requires Inv(s) && Bound(s)
    ensures StaysBound(s, Run(s, steps))
  {
    if steps != [] {
      RunStaysBound(s, steps[..|steps| - 1]);
      RunKeepsInv(s, steps[..|steps| - 1]);
      NextStaysBound(Run(s, steps[..|steps| - 1]), steps[|steps| - 1]);
    }
  }

  /** A native permission a worker asks for itself is never answered, and no adapter is ever told of a decision on it. */
  lemma {:induction false} AskedNativeNeverAnswered(s: State, steps: seq<Step>)
    requires Initial(s) && s.native && s.waits
    ensures Run(s, steps).msg.status != Answered && Run(s, steps).log.responses == []
  {
    RunStaysBound(s, steps);
  }

  // ----- an answer was carried out -----

  predicate Grants(kind: Type, r: Resolution) {
    kind == ScopeExpansionRequest && r.decision.Some? && r.decision.value.allowed
  }

  /** What must have happened before the message is answered. */
  ghost predicate Carried(s: State) {
    && (s.work.Answering? && Grants(s.msg.head.kind, s.work.r) ==> AllHeld(s.requested, s.scope))
    && (s.msg.status == Answered ==> forall r :: Means(s.msg, r) && Grants(s.msg.head.kind, r) ==> AllHeld(s.requested, s.scope))
    && (s.work.Recording? ==> s.log.accepted != [])
    && (s.native && s.msg.status == Answered ==> s.log.accepted != [])
    && (forall d :: d in s.log.accepted ==> d in s.log.responses)
  }

  /** Message, scope and adapter are left alone, and the lock does not go to a stage that answers. */
  lemma StaysCarried(s: State, t: State)
    requires Carried(s) && t.msg == s.msg && SameOrigin(s, t) && t.scope == s.scope
    requires t.log.responses == s.log.responses && t.log.accepted == s.log.accepted
    requires t.work == s.work || (!t.work.Answering? && !t.work.Recording?)
    ensures Carried(t)
  {
  }

  /** Nothing is owed for a message that is not answered. */
  lemma UnansweredIsCarried(s: State, t: State)
    requires Carried(s) && t.msg.status != Answered && t.log.responses == s.log.responses && t.log.accepted == s.log.accepted
    requires !t.work.Answering? && !t.work.Recording?
    ensures Carried(t)
  {
  }

  lemma WidenKeepsCarried(s: State, r: Resolution, ok: bool)
    requires Inv(s) && Carried(s) && s.work == Widening(r)
    ensures Carried(DoWiden(s, r, ok))
  {
  }

  lemma AnswerKeepsCarried(s: State, r: Resolution, ok: bool, now: int)
    requires Inv(s) && Bound(s) && Carried(s) && s.work == Answering(r)
    ensures Carried(DoTransition(s, Answered, FrozenBytes(s.msg), ok, now, Publishing))
  {
    TransitionEffect(s.msg, Answered, FrozenBytes(s.msg), None, now);
  }

  lemma AfterFreezeCarried(s: State, a: Attempt, r: Resolution, ok: bool, next: Work)
    requires Carried(s) && s.msg.status != Answered && (a.Write? ==> a.candidate.status != Answered)
    requires !next.Answering? && !next.Recording?
    ensures Carried(AfterFreeze(s, a, r, ok, next))
  {
    UnansweredIsCarried(s, AfterFreeze(s, a, r, ok, next));
  }

  lemma FreezeKeepsCarried(s: State, r: Resolution, ok: bool, now: int, next: Work)
    requires Inv(s) && Carried(s) && (s.work == Freezing(r) || s.work == Intending(r)) && !next.Answering? && !next.Recording?
    ensures Carried(DoFreeze(s, r, ok, now, next))
  {
    FreezeEffect(s, r, now);
    AfterFreezeCarried(s, Freezes(s, r, now), r, ok, next);
  }

  lemma ResolveKeepsCarried(s: State, ok: bool, now: int)
    requires Inv(s) && Bound(s) && Carried(s)
    ensures Carried(AdvanceResolve(s, ok, now))
  {
    match s.work {
      case Checking(r) => StaysCarried(s, AdvanceResolve(s, ok, now));
      case Freezing(r) => FreezeKeepsCarried(s, r, ok, now, Widening(r));
      case Widening(r) => WidenKeepsCarried(s, r, ok);
      case Answering(r) => AnswerKeepsCarried(s, r, ok, now);
      case Publishing => StaysCarried(s, AdvanceResolve(s, ok, now));
      case Notifying => StaysCarried(s, AdvanceResolve(s, ok, now));
      case _ =>
    }
  }

  lemma RecordKeepsCarried(s: State, ok: bool, now: int)
    requires Inv(s) && Bound(s) && Carried(s) && (s.work == Retrying || s.work.Recording?)
    ensures Carried(AdvanceNative(s, ok, now))
  {
  }

  lemma NativeKeepsCarried(s: State, ok: bool, now: int)
    requires Inv(s) && Bound(s) && Carried(s)
    ensures Carried(AdvanceNative(s, ok, now))
  {
    match s.work {
      case Intending(r) => FreezeKeepsCarried(s, r, ok, now, Announcing(r));
      case Announcing(r) => StaysCarried(s, AdvanceNative(s, ok, now));
      case Retrying => RecordKeepsCarried(s, ok, now);
      case Requeueing => StaysCarried(s, AdvanceNative(s, ok, now));
      case Recording(r) => RecordKeepsCarried(s, ok, now);
      case PublishingNative => StaysCarried(s, AdvanceNative(s, ok, now));
      case _ =>
    }
  }

  lemma ExpireKeepsCarried(s: State, ok: bool, now: int)
    requires Inv(s) && Carried(s)
    ensures Carried(AdvanceExpire(s, ok, now))
  {
    match s.work {
      case ExpireChecking => StaysCarried(s, AdvanceExpire(s, ok, now));
      case Expiring =>
        TransitionEffect(s.msg, Expired, Nil, None, now);
        UnansweredIsCarried(s, AdvanceExpire(s, ok, now));
      case ExpirePublishing => StaysCarried(s, AdvanceExpire(s, ok, now));
      case _ =>
    }
  }

  lemma AskKeepsCarried(s: State, ok: bool)
    requires Carried(s)
    ensures Carried(AdvanceAsk(s, ok))
  {
    match s.work {
      case Asking => OnlyAsks(s, AdvanceAsk(s, ok));
      case Queueing => QueueKeepsCarried(s, ok);
      case Registering => OnlyAsks(s, AdvanceAsk(s, ok));
      case Setting => OnlyAsks(s, AdvanceAsk(s, ok));
      case _ =>
    }
  }

  /** Only the bookkeeping of the waiting call changes, and it goes no further than parking. */
  lemma OnlyAsks(s: State, t: State)
    requires Carried(s) && !t.work.Answering? && !t.work.Recording?
    requires t == s.(work := t.work, asker := t.asker, registered := t.registered, token := t.token)
    ensures Carried(t)
  {
    StaysCarried(s, t);
  }

  lemma QueueKeepsCarried(s: State, ok: bool)
    requires Carried(s) && s.work == Queueing
    ensures Carried(AdvanceAsk(s, ok))
  {
    StaysCarried(s, AdvanceAsk(s, ok));
  }

  lemma AdvanceKeepsCarried(s: State, ok: bool, now: int)
    requires Inv(s) && Bound(s) && Carried(s)
    ensures Carried(DoAdvance(s, ok, now))
  {
    ResolveKeepsCarried(s, ok, now);
    NativeKeepsCarried(s, ok, now);
    ExpireKeepsCarried(s, ok, now);
    AskKeepsCarried(s, ok);
  }

  lemma RespondKeepsCarried(s: State, reached: bool, accepted: bool)
    requires Inv(s) && Carried(s)
    ensures Carried(DoRespond(s, reached, accepted))
  {
  }

  lemma PublishFailsKeepsCarried(s: State, now: int, appended: bool, committed: bool)
    requires Inv(s) && Carried(s)
    ensures Carried(DoPublishFails(s, now, appended, committed))
  {
    if s.work == Setting {
      TransitionEffect(s.msg, Failed, Nil, Some([]), now);
    }
  }

  lemma NextKeepsCarried(s: State, step: Step)
    requires Inv(s) && Bound(s) && Carried(s)
    ensures Carried(Next(s, step))
  {
    match step {
      case Resolve(r) => StaysCarried(s, Next(s, step));
      case Expire => StaysCarried(s, Next(s, step));
      case Ask => StaysCarried(s, Next(s, step));
      case Advance(ok, now) => AdvanceKeepsCarried(s, ok, now);
      case Respond(reached, accepted) => RespondKeepsCarried(s, reached, accepted);
      case PublishFails(now, appended, committed) => PublishFailsKeepsCarried(s, now, appended, committed);
      case Wake => StaysCarried(s, Next(s, step));
      case Cancel => StaysCarried(s, Next(s, step));
      case ScopeGrows(extra) =>
      case Crash => StaysCarried(s, Next(s, step));
    }
  }

  lemma {:induction false} RunKeepsCarried(s: State, steps: seq<Step>)
    requires Inv(s) && Bound(s) && Carried(s)
    ensures Carried(Run(s, steps))
  {
    if steps != [] {
      RunKeepsCarried(s, steps[..|steps| - 1]);
      RunKeepsInv(s, steps[..|steps| - 1]);
      RunStaysBound(s, steps[..|steps| - 1]);
      NextKeepsCarried(Run(s, steps[..|steps| - 1]), steps[|steps| - 1]);
    }
  }

  /**
   What an answer says has been done: every pattern of an allowed scope request is in the scope, and
   an answered native permission was accepted by its adapter, with the frozen decision.
   */
  lemma {:induction false} AnswerWasCarriedOut(s: State, steps: seq<Step>, r: Resolution)
    requires Initial(s) && Run(s, steps).msg.status == Answered && Means(Run(s, steps).msg, r)
    ensures s.msg.head.kind == ScopeExpansionRequest && r.decision.Some? && r.decision.value.allowed ==>
              forall p :: p in s.requested ==> p in Run(s, steps).scope
    ensures s.native ==> Run(s, steps).log.accepted != [] && forall d :: d in Run(s, steps).log.accepted ==> r == NewDecision(d)
  {
    RunKeepsInv(s, steps);
    RunStaysBound(s, steps);
    RunKeepsCarried(s, steps);
  }

  // ----- no lost wake-up -----

  /** A lock holder that will still notify if its commit succeeds. */
  predicate WillNotify(w: Work) {
    w == Publishing || w == ExpirePublishing || w == Notifying
  }

  /** A parked request whose message is decided has its wake-up, or it is still coming. */
  predicate Awake(s: State) {
    && (s.asker == Parked && IsTerminal(s.msg.status) ==> s.token || (s.registered && WillNotify(s.work)))
    && (s.asker == Parked && !IsTerminal(s.msg.status) ==> s.registered)
    && (s.work == Setting && s.waits ==> s.registered)
  }

  /** The steps that lose a wake-up somebody waits for: the commit of a terminal projection fails. */
  predicate Loses(s: State, step: Step) {
    && s.asker == Parked && !s.token && step.Advance? && !step.ok
    && (s.work == Publishing || s.work == ExpirePublishing)
  }

  predicate LosesNone(s: State, steps: seq<Step>) {
    steps == [] || (LosesNone(s, steps[..|steps| - 1]) && !Loses(Run(s, steps[..|steps| - 1]), steps[|steps| - 1]))
  }

  lemma TransitionStaysAwake(s: State, to: Status, argument: Argument, ok: bool, now: int, next: Work)
    requires Inv(s) && Awake(s) && s.asker != Busy && s.msg.status == Queued && WillNotify(next)
    ensures Awake(DoTransition(s, to, argument, ok, now, next))
  {
  }

  lemma FreezeStaysAwake(s: State, r: Resolution, ok: bool, now: int, next: Work)
    requires Inv(s) && Awake(s) && (s.work == Freezing(r) || s.work == Intending(r)) && next != Setting
    ensures Awake(DoFreeze(s, r, ok, now, next))
  {
    FreezeEffect(s, r, now);
  }

  lemma RecordStaysAwake(s: State, ok: bool, now: int)
    requires Inv(s) && Awake(s) && s.work == Retrying
    ensures Awake(DoRecord(s, None, ok, now, Requeueing))
  {
  }

  lemma NativeStaysAwake(s: State, ok: bool, now: int)
    requires Inv(s) && Bound(s) && Awake(s)
    ensures Awake(AdvanceNative(s, ok, now))
  {
    match s.work {
      case Intending(r) => FreezeStaysAwake(s, r, ok, now, Announcing(r));
      case Retrying => RecordStaysAwake(s, ok, now);
      case _ =>
    }
  }

  lemma ResolveStaysAwake(s: State, ok: bool, now: int)
    requires Inv(s) && Awake(s) && !Loses(s, Advance(ok, now))
    ensures Awake(AdvanceResolve(s, ok, now))
  {
    match s.work {
      case Freezing(r) => FreezeStaysAwake(s, r, ok, now, Widening(r));
      case Answering(r) => TransitionStaysAwake(s, Answered, FrozenBytes(s.msg), ok, now, Publishing);
      case _ =>
    }
  }

  lemma ExpireStaysAwake(s: State, ok: bool, now: int)
    requires Inv(s) && Awake(s) && !Loses(s, Advance(ok, now))
    ensures Awake(AdvanceExpire(s, ok, now))
  {
    match s.work {
      case Expiring => TransitionStaysAwake(s, Expired, Nil, ok, now, ExpirePublishing);
      case _ =>
    }
  }

  lemma AskStaysAwake(s: State, ok: bool)
    requires Inv(s) && Awake(s)
    ensures Awake(AdvanceAsk(s, ok))
  {
  }

  lemma AdvanceStaysAwake(s: State, ok: bool, now: int)
    requires Inv(s) && Bound(s) && Awake(s) && !Loses(s, Advance(ok, now))
    ensures Awake(DoAdvance(s, ok, now))
  {
    ResolveStaysAwake(s, ok, now);
    NativeStaysAwake(s, ok, now);
    ExpireStaysAwake(s, ok, now);
    AskStaysAwake(s, ok);
  }

  lemma NextStaysAwake(s: State, step: Step)
    requires Inv(s) && Bound(s) && Awake(s) && !Loses(s, step)
    ensures Awake(Next(s, step))
  {
    if step.Advance? {
      AdvanceStaysAwake(s, step.ok, step.now);
    }
  }

  lemma LosingStep(s: State, step: Step)
    requires Inv(s) && Loses(s, step)
    ensures !Awake(Next(s, step))
  {
  }

  /** These are exactly the steps that lose a wake-up. */
  lemma WakeupLostIff(s: State, step: Step)
    requires Inv(s) && Bound(s) && Awake(s)
    ensures Awake(Next(s, step)) <==> !Loses(s, step)
  {
    if Loses(s, step) {
      LosingStep(s, step);
    } else {
      NextStaysAwake(s, step);
    }
  }

  lemma {:induction false} RunStaysAwake(s: State, steps: seq<Step>)
    requires Inv(s) && Bound(s) && Awake(s) && LosesNone(s, steps)
    ensures Awake(Run(s, steps))
  {
    if steps != [] {
      RunStaysAwake(s, steps[..|steps| - 1]);
      RunKeepsInv(s, steps[..|steps| - 1]);
      RunStaysBound(s, steps[..|steps| - 1]);
      WakeupLostIff(Run(s, steps[..|steps| - 1]), steps[|steps| - 1]);
    }
  }

  /** No lost wake-up, for any message, in any run in which no commit of a terminal projection fails. */
  lemma {:induction false} NoLostWakeup(s: State, steps: seq<Step>)
    requires Initial(s) && LosesNone(s, steps)
    ensures var t := Run(s, steps);
      t.asker == Parked && IsTerminal(t.msg.status) ==> t.token || (t.registered && WillNotify(t.work))
  {
    RunStaysAwake(s, steps);
  }

  /** A wake-up never comes for an undecided message. */
  lemma {:induction false} WakeMeansDecided(s: State, steps: seq<Step>)
    requires Initial(s) && Run(s, steps).token
    ensures IsTerminal(Run(s, steps).msg.status)
  {
    RunKeepsInv(s, steps);
  }

  /** Parked for good: decided, no wake-up and nobody left to send one. */
  predicate Stuck(s: State) {
    s.asker == Parked && IsTerminal(s.msg.status) && !s.token && s.work == Idle
  }

  /** The condition is needed: one failed commit of a terminal projection strands the parked request. */
  lemma FailedCommitStrands(s: State, now: int)
    requires Inv(s) && s.asker == Parked && s.registered && (s.work == Publishing || s.work == ExpirePublishing)
    ensures Stuck(Next(s, Advance(false, now)))
  {
  }

  /** Parked for good, with later calls at most looking at the terminal message. */
  predicate Stranded(s: State) {
    && s.asker == Parked && IsTerminal(s.msg.status) && !s.token
    && (s.work == Idle || s.work.Checking? || s.work == ExpireChecking)
  }

  lemma NextKeepsStranded(s: State, step: Step)
    requires Stranded(s) && step != Cancel && step != Step.Crash
    ensures Stranded(Next(s, step))
  {
  }

  /** Nothing but cancelling or a crash frees a stranded request, whatever is resolved, retried or expired. */
  lemma {:induction false} StrandedStays(s: State, steps: seq<Step>)
    requires Stranded(s) && Cancel !in steps && Step.Crash !in steps
    ensures Stranded(Run(s, steps))
  {
    if steps != [] {
      var n := |steps| - 1;
      assert steps[n] in steps && forall x :: x in steps[..n] ==> x in steps;
      StrandedStays(s, steps[..n]);
      NextKeepsStranded(Run(s, steps[..n]), steps[n]);
    }
  }

  // ----- runs that strand a request -----

  lemma {:induction false} RunSnoc(s: State, steps: seq<Step>, step: Step)
    ensures Run(s, steps + [step]) == Next(Run(s, steps), step)
  {
    assert (steps + [step])[..|steps|] == steps;
  }

  const Go := Advance(true, 0)

  /** The request is enqueued, published, registered and parked. */
  const Parking: seq<Step> := [] + [Ask] + [Go] + [Go] + [Go] + [Go]

  function ParkedOn(s: State): State {
    s.(asker := Asker.Parked, registered := true, log := s.log.(events := [QueuedEvent]))
  }

  lemma AskSteps(s: State)
    requires Initial(s) && s.waits
    ensures Next(Next(s, Ask), Go) == s.(work := Queueing, asker := Busy)
  {
  }

  lemma QueueSteps(s: State, a: State)
    requires Initial(s) && s.waits && a == s.(work := Queueing, asker := Busy)
    ensures Next(Next(a, Go), Go) == ParkedOn(s).(work := Setting, asker := Busy)
  {
  }

  lemma SetStep(s: State, a: State)
    requires Initial(s) && s.waits && a == ParkedOn(s).(work := Setting, asker := Busy)
    ensures Next(a, Go) == ParkedOn(s)
  {
  }

  lemma {:induction false} RequestParks(s: State)
    requires Initial(s) && s.waits
    ensures Run(s, Parking) == ParkedOn(s)
  {
    AskSteps(s);
    QueueSteps(s, s.(work := Queueing, asker := Busy));
    SetStep(s, ParkedOn(s).(work := Setting, asker := Busy));
    RunFive(s, Ask, Go, Go, Go, Go);
  }

  lemma {:induction false} RunFive(s: State, a: Step, b: Step, c: Step, d: Step, e: Step)
    ensures Run(s, [] + [a] + [b] + [c] + [d] + [e]) == Next(Next(Next(Next(Next(s, a), b), c), d), e)
  {
    RunSnoc(s, [], a);
    RunSnoc(s, [] + [a], b);
    RunSnoc(s, [] + [a] + [b], c);
    RunSnoc(s, [] + [a] + [b] + [c], d);
    RunSnoc(s, [] + [a] + [b] + [c] + [d], e);
  }

  /** A resolution is checked and frozen. */
  function FrozenAs(s: State, r: Resolution, w: Work): State {
    s.(msg := s.msg.(resolution := Some(Tagged(r, [])), updatedAt := 0), work := w, log := s.log.(frozen := [Tagged(r, [])]))
  }

  lemma FreezeStep(s: State, r: Resolution, w: Work)
    requires s.msg.status == Queued && s.msg.resolution.None? && Valid(s.msg.head.kind, r) && s.log.frozen == []
    ensures DoFreeze(s, r, true, 0, w) == FrozenAs(s, r, w)
  {
    NormalizeKeepsMeaning(s.msg.head.kind, Tagged(r, []));
  }

  /** The answer is frozen and recorded, and the commit of its projection fails. */
  function FailingCommit(r: Resolution): seq<Step> {
    Parking + [Resolve(r)] + [Go] + [Go] + [Go] + [Go] + [Advance(false, 0)]
  }

  lemma {:induction false} AnswerIsRecorded(s: State, r: Resolution, p: seq<Step>)
    requires Initial(s) && s.waits && !s.native && Valid(s.msg.head.kind, r) && Run(s, p) == ParkedOn(s)
    ensures var t := Run(s, p + [Resolve(r)] + [Go] + [Go]);
      t.asker == Parked && !t.token && t.work == Widening(r) && t.msg.status == Queued && t.msg.resolution == Some(Tagged(r, []))
  {
    var q := ParkedOn(s);
    RunSnoc(s, p, Resolve(r));
    RunSnoc(s, p + [Resolve(r)], Go);
    assert Run(s, p + [Resolve(r)] + [Go]) == q.(work := Freezing(r));
    RunSnoc(s, p + [Resolve(r)] + [Go], Go);
    FreezeStep(q.(work := Freezing(r)), r, Widening(r));
  }

  lemma {:induction false} WideningAnswers(s: State, r: Resolution, p: seq<Step>)
    requires Run(s, p).work == Widening(r) && Run(s, p).msg.status == Queued && Run(s, p).msg.resolution.Some?
    ensures var t := Run(s, p + [Go] + [Go]);
      t.work == Publishing && t.msg.status == Answered && t.asker == Run(s, p).asker && t.token == Run(s, p).token
  {
    RunSnoc(s, p, Go);
    RunSnoc(s, p + [Go], Go);
    WideningStep(Run(s, p), r);
    AnsweringStep(Run(s, p + [Go]), r);
  }

  lemma WideningStep(q: State, r: Resolution)
    requires q.work == Widening(r)
    ensures var a := Next(q, Go); a.work == Answering(r) && a.msg == q.msg && a.asker == q.asker && a.token == q.token
  {
  }

  lemma AnsweringStep(q: State, r: Resolution)
    requires q.work == Answering(r) && q.msg.status == Queued && q.msg.resolution.Some?
    ensures var a := Next(q, Go); a.work == Publishing && a.msg.status == Answered && a.asker == q.asker && a.token == q.token
  {
    TransitionEffect(q.msg, Answered, FrozenBytes(q.msg), None, 0);
  }

  /**
   Every fresh message that is not a native permission has a run that strands its request: any valid
   resolution, with the commit of the answered projection failing.
   */
  lemma {:induction false} FailedCommitReachable(s: State, r: Resolution)
    requires Initial(s) && s.waits && !s.native && Valid(s.msg.head.kind, r)
    ensures Stuck(Run(s, FailingCommit(r)))
  {
    RequestParks(s);
    AnswerIsRecorded(s, r, Parking);
    var p := Parking + [Resolve(r)] + [Go] + [Go];
    WideningAnswers(s, r, p);
    RunSnoc(s, p + [Go] + [Go], Advance(false, 0));
  }

  /** The message is expired, and the commit of that projection fails. */
  const FailingExpiry: seq<Step> := Parking + [Expire] + [Go] + [Go] + [Advance(false, 0)]

  lemma ExpireSteps(s: State)
    requires Initial(s) && s.waits
    ensures var t := Next(Next(Next(ParkedOn(s), Expire), Go), Go);
      t.work == ExpirePublishing && t.asker == Parked && !t.token && t.msg.status == Expired
  {
    TransitionEffect(s.msg, Expired, Nil, None, 0);
  }

  /** Every fresh message somebody waits for, native or not, has a run that strands the request by a failing expiry. */
  lemma {:induction false} FailedExpiryReachable(s: State)
    requires Initial(s) && s.waits
    ensures Stuck(Run(s, FailingExpiry))
  {
    RequestParks(s);
    RunSnoc(s, Parking, Expire);
    RunSnoc(s, Parking + [Expire], Go);
    RunSnoc(s, Parking + [Expire] + [Go], Go);
    RunSnoc(s, Parking + [Expire] + [Go] + [Go], Advance(false, 0));
    ExpireSteps(s);
  }

  // ----- which parked requests can still end -----

  /** A native permission with a frozen resolution: queued, parked on, and looked at in vain. */
  predicate Held(s: State) {
    && s.native && s.msg.attempt <= 0 && s.msg.status == Queued && s.msg.resolution.Some? && s.asker == Parked && !s.token
    && (s.work == Idle || s.work.Checking? || s.work == ExpireChecking || NativeWork(s.work))
    && !s.work.Recording? && s.work != PublishingNative
  }

  lemma NextKeepsHeld(s: State, step: Step)
    requires Inv(s) && Held(s) && step != Cancel && step != Step.Crash
    ensures Held(Next(s, step))
  {
    match step {
      case Advance(ok, now) => AdvanceKeepsHeld(s, ok, now);
      case _ =>
    }
  }

  lemma AdvanceKeepsHeld(s: State, ok: bool, now: int)
    requires Inv(s) && Held(s)
    ensures Held(DoAdvance(s, ok, now))
  {
    match s.work {
      case Intending(r) => FreezeEffect(s, r, now);
      case _ =>
    }
  }

  predicate Undisturbed(steps: seq<Step>) {
    Cancel !in steps && Step.Crash !in steps
  }

  /** Whatever is submitted, retried or expired, it stays queued and the request parked. */
  lemma {:induction false} HeldStays(s: State, steps: seq<Step>)
    requires Inv(s) && Held(s) && Undisturbed(steps)
    ensures Held(Run(s, steps))
  {
    if steps != [] {
      var n := |steps| - 1;
      assert steps[n] in steps && forall x :: x in steps[..n] ==> x in steps;
      HeldStays(s, steps[..n]);
      RunKeepsInv(s, steps[..n]);
      NextKeepsHeld(Run(s, steps[..n]), steps[n]);
    }
  }

  /** Some steps without cancelling or a crash end the request. */
  ghost predicate CanEnd(s: State) {
    exists steps :: Undisturbed(steps) && Run(s, steps).asker == Done
  }

  lemma {:induction false} RunCons(s: State, step: Step, steps: seq<Step>)
    ensures Run(s, [step] + steps) == Run(Next(s, step), steps)
    decreases |steps|
  {
    if steps == [] {
      assert [step] + steps == [] + [step];
      RunSnoc(s, [], step);
    } else {
      var front, last := steps[..|steps| - 1], steps[|steps| - 1];
      assert steps == front + [last] && [step] + steps == [step] + front + [last];
      RunCons(s, step, front);
      RunSnoc(s, [step] + front, last);
      RunSnoc(Next(s, step), front, last);
    }
  }

  lemma EndsAfter(s: State, step: Step)
    requires CanEnd(Next(s, step)) && step != Cancel && step != Step.Crash
    ensures CanEnd(s)
  {
    var steps :| Undisturbed(steps) && Run(Next(s, step), steps).asker == Done;
    RunCons(s, step, steps);
    assert Undisturbed([step] + steps);
  }

  lemma DoneEnds(s: State)
    requires s.asker == Done
    ensures CanEnd(s)
  {
    assert Undisturbed([]) && Run(s, []) == s;
  }

  lemma TokenEnds(s: State)
    requires s.asker == Parked && s.token
    ensures CanEnd(s)
  {
    DoneEnds(Next(s, Wake));
    EndsAfter(s, Wake);
  }

  lemma NotifyingEnds(s: State)
    requires s.asker == Parked && s.registered && s.work == Notifying
    ensures CanEnd(s)
  {
    TokenEnds(Next(s, Go));
    EndsAfter(s, Go);
  }

  lemma PublishingEnds(s: State)
    requires s.asker == Parked && s.registered && (s.work == Publishing || s.work == ExpirePublishing)
    ensures CanEnd(s)
  {
    NotifyingEnds(Next(s, Go));
    EndsAfter(s, Go);
  }

  lemma ExpiringEnds(s: State)
    requires s.asker == Parked && s.registered && s.work == Expiring && s.msg.status == Queued
    ensures CanEnd(s)
  {
    TransitionEffect(s.msg, Expired, Nil, None, 0);
    PublishingEnds(Next(s, Go));
    EndsAfter(s, Go);
  }

  lemma UndecidedEnds(s: State)
    requires s.asker == Parked && s.registered && s.work == Idle && s.msg.status == Queued && s.msg.resolution.None?
    ensures CanEnd(s)
  {
    ExpiringEnds(Next(Next(s, Expire), Go));
    EndsAfter(Next(s, Expire), Go);
    EndsAfter(s, Expire);
  }

  lemma AnsweringEnds(s: State, r: Resolution)
    requires s.asker == Parked && s.registered && s.work == Answering(r) && s.msg.status == Queued && s.msg.resolution.Some?
    ensures CanEnd(s)
  {
    TransitionEffect(s.msg, Answered, FrozenBytes(s.msg), None, 0);
    PublishingEnds(Next(s, Go));
    EndsAfter(s, Go);
  }

  lemma WideningEnds(s: State, r: Resolution)
    requires s.asker == Parked && s.registered && s.work == Widening(r) && s.msg.status == Queued && s.msg.resolution.Some?
    ensures CanEnd(s)
  {
    AnsweringEnds(Next(s, Go), r);
    EndsAfter(s, Go);
  }

  /** Submitting what is frozen already goes on to answer. */
  lemma SameAgain(s: State, r: Resolution)
    requires s.msg.status == Queued && Means(s.msg, r)
    ensures Freezes(s, r, 0).Keep?
  {
    var kind, raw := s.msg.head.kind, Tagged(r, []);
    DecodedIsValid(kind, s.msg.resolution.value);
    NormalFormsDecide(kind, s.msg.resolution.value, raw);
    EqualIffSameMeaning(kind, s.msg.resolution.value, raw);
  }

  lemma FreezingEnds(s: State, r: Resolution)
    requires s.asker == Parked && s.registered && s.work == Freezing(r) && s.msg.status == Queued && Means(s.msg, r)
    ensures CanEnd(s)
  {
    SameAgain(s, r);
    WideningEnds(Next(s, Go), r);
    EndsAfter(s, Go);
  }

  lemma FrozenEnds(s: State)
    requires s.asker == Parked && s.registered && s.work == Idle && s.msg.status == Queued && !s.native
    requires s.msg.resolution.Some? && Readable(s.msg)
    ensures CanEnd(s)
  {
    var r := DecodeResolutionForType(s.msg.head.kind, s.msg.resolution.value).value;
    DecodedIsValid(s.msg.head.kind, s.msg.resolution.value);
    FreezingEnds(Next(Next(s, Resolve(r)), Go), r);
    EndsAfter(Next(s, Resolve(r)), Go);
    EndsAfter(s, Resolve(r));
  }

  /**
   With the lock free and no wake-up lost, a parked request can still end otherwise than by cancelling or
   a crash, except exactly when its message is a native permission with a frozen resolution: the binding
   refuses every delivery, and expiry refuses what is frozen.
   */
  lemma ParkedCanEndIff(s: State)
    requires Inv(s) && Bound(s) && Awake(s) && s.asker == Parked && s.work == Idle
    ensures CanEnd(s) <==> !(s.native && s.msg.status == Queued && s.msg.resolution.Some?)
  {
    if s.native && s.msg.status == Queued && s.msg.resolution.Some? {
      forall steps | Undisturbed(steps)
        ensures Run(s, steps).asker != Done
      {
        HeldStays(s, steps);
      }
    } else if IsTerminal(s.msg.status) {
      TokenEnds(s);
    } else if s.msg.resolution.None? {
      UndecidedEnds(s);
    } else {
      FrozenEnds(s);
    }
  }

  /** So it is in every run in which no commit of a terminal projection fails, whenever the lock is free. */
  lemma {:induction false} ParkedRequestCanEndIff(s: State, steps: seq<Step>)
    requires Initial(s) && LosesNone(s, steps) && Run(s, steps).asker == Parked && Run(s, steps).work == Idle
    ensures var t := Run(s, steps);
      CanEnd(t) <==> !(t.native && t.msg.status == Queued && t.msg.resolution.Some?)
  {
    RunKeepsInv(s, steps);
    RunStaysBound(s, steps);
    RunStaysAwake(s, steps);
    ParkedCanEndIff(Run(s, steps));
  }

  /** A worker's request for a native permission, resolved once: nothing fails, and it is held for good. */
  function NativeHold(r: Resolution): seq<Step> {
    Parking + [Resolve(r)] + [Go] + [Go]
  }

  lemma {:induction false} NativeHoldReachable(s: State, r: Resolution)
    requires Initial(s) && s.native && s.waits && Valid(PermissionRequest, r)
    ensures Held(Run(s, NativeHold(r)))
  {
    RequestParks(s);
    var q := ParkedOn(s);
    RunSnoc(s, Parking, Resolve(r));
    RunSnoc(s, Parking + [Resolve(r)], Go);
    assert Run(s, Parking + [Resolve(r)] + [Go]) == q.(work := Intending(r));
    RunSnoc(s, Parking + [Resolve(r)] + [Go], Go);
    FreezeStep(q.(work := Intending(r)), r, Announcing(r));
  }

  // ----- runs in which nothing fails -----

  /** What the scope and the list of grants are after a resolution. */
  predicate GrantedBy(f: State, t: State, r: Resolution) {
    if Grants(f.msg.head.kind, r) then t.scope == Grow(f.scope, f.requested) && t.log.widened == f.log.widened + [r.decision.value]
    else t.scope == f.scope && t.log.widened == f.log.widened
  }

  lemma WidenThenAnswer(f: State, r: Resolution)
    requires f.work == Widening(r) && f.msg.status == Queued && f.msg.resolution.Some?
    ensures var t := Next(Next(f, Go), Go);
      && t.work == Publishing && t.msg == f.msg.(status := Answered, updatedAt := 0) && GrantedBy(f, t, r)
      && t.asker == f.asker && t.registered == f.registered && t.token == f.token && t.log.events == f.log.events
  {
    var w := Next(f, Go);
    assert w.work == Answering(r) && w.msg == f.msg && w.asker == f.asker && w.log.events == f.log.events;
    TransitionEffect(w.msg, Answered, FrozenBytes(w.msg), None, 0);
  }

  lemma PublishThenWake(p: State)
    requires p.work == Publishing && p.asker == Parked && p.registered
    ensures var t := Next(Next(Next(p, Go), Go), Wake);
      && t.msg == p.msg && t.work == Idle && t.asker == Done && t.scope == p.scope
      && t.log == p.log.(events := p.log.events + [AnsweredEvent])
  {
  }

  /** The resolution is submitted, frozen, carried out, published and awaited. */
  function Answer(r: Resolution): seq<Step> {
    NativeHold(r) + [Go] + [Go] + [Go] + [Go] + [Wake]
  }

  /**
   When nothing fails, every awaited message that is no native permission is answered with the
   resolution submitted for it: published queued and then answered, granted exactly if it is a scope
   request that the resolution allows, and the request returns.
   */
  lemma {:induction false} EveryRequestCanBeAnswered(s: State, r: Resolution)
    requires Initial(s) && s.waits && !s.native && Valid(s.msg.head.kind, r)
    ensures var t := Run(s, Answer(r));
      && t.msg.status == Answered && Means(t.msg, r) && t.asker == Done && t.work == Idle
      && t.log.events == [QueuedEvent, AnsweredEvent] && GrantedBy(s, t, r)
  {
    FrozenInRun(s, r);
    var h := NativeHold(r);
    var f := Run(s, h);
    WidenThenAnswer(f, r);
    PublishThenWake(Next(Next(f, Go), Go));
    RunSnoc(s, h, Go);
    RunSnoc(s, h + [Go], Go);
    RunSnoc(s, h + [Go] + [Go], Go);
    RunSnoc(s, h + [Go] + [Go] + [Go], Go);
    RunSnoc(s, h + [Go] + [Go] + [Go] + [Go], Wake);
  }

  lemma {:induction false} FrozenInRun(s: State, r: Resolution)
    requires Initial(s) && s.waits && !s.native && Valid(s.msg.head.kind, r)
    ensures Run(s, NativeHold(r)) == FrozenAs(ParkedOn(s), r, Widening(r))
  {
    RequestParks(s);
    RunSnoc(s, Parking, Resolve(r));
    RunSnoc(s, Parking + [Resolve(r)], Go);
    assert Run(s, Parking + [Resolve(r)] + [Go]) == ParkedOn(s).(work := Freezing(r));
    RunSnoc(s, Parking + [Resolve(r)] + [Go], Go);
    FreezeStep(ParkedOn(s).(work := Freezing(r)), r, Widening(r));
  }

  /** A permission from an adapter: queued by the bridge, then resolved, and answered by the adapter or tried again. */
  const Bridging: seq<Step> := [] + [Ask] + [Go] + [Go] + [Go]

  function BridgedOn(s: State): State {
    s.(asker := Done, log := s.log.(events := [QueuedEvent]))
  }

  lemma BridgeAsks(s: State)
    requires Initial(s) && !s.waits
    ensures Next(Next(s, Ask), Go) == s.(work := Queueing, asker := Busy)
  {
  }

  lemma BridgeSets(s: State, a: State)
    requires Initial(s) && !s.waits && a == s.(work := Queueing, asker := Busy)
    ensures Next(a, Go) == BridgedOn(s).(work := Setting, asker := Busy)
  {
  }

  lemma BridgeLeaves(s: State, a: State)
    requires Initial(s) && !s.waits && a == BridgedOn(s).(work := Setting, asker := Busy)
    ensures Next(a, Go) == BridgedOn(s)
  {
  }

  lemma {:induction false} BridgeQueues(s: State)
    requires Initial(s) && !s.waits
    ensures Run(s, Bridging) == BridgedOn(s)
  {
    BridgeAsks(s);
    BridgeSets(s, s.(work := Queueing, asker := Busy));
    BridgeLeaves(s, BridgedOn(s).(work := Setting, asker := Busy));
    RunOnFour(s, [], Ask, Go, Go, Go);
  }

  /** Up to the moment the adapter is asked. */
  function Announced(r: Resolution): seq<Step> {
    Bridging + [Resolve(r)] + [Go] + [Go] + [Go]
  }

  lemma BridgedIntends(b: State, r: Resolution)
    requires b.native && b.work == Idle && b.msg.status == Queued && Valid(b.msg.head.kind, r)
    ensures Next(Next(b, Resolve(r)), Go) == b.(work := Intending(r))
  {
  }

  lemma IntendedAnnounces(b: State, r: Resolution)
    requires b.work == Intending(r) && b.msg.status == Queued && b.msg.resolution.None? && Valid(b.msg.head.kind, r) && b.log.frozen == []
    ensures var f := FrozenAs(b, r, Announcing(r));
      Next(Next(b, Go), Go) == f.(work := Responding(r), log := f.log.(events := b.log.events + [QueuedEvent]))
  {
    FreezeStep(b, r, Announcing(r));
  }

  lemma {:induction false} AnnouncedInRun(s: State, r: Resolution)
    requires Initial(s) && !s.waits && Valid(PermissionRequest, r)
    ensures var t := Run(s, Announced(r));
      && t.work == Responding(r) && t.msg == FrozenAs(BridgedOn(s), r, Idle).msg
      && t.log == Log([QueuedEvent, QueuedEvent], [Tagged(r, [])], [], [], []) && t.asker == Done
  {
    BridgeQueues(s);
    var b := BridgedOn(s);
    BridgedIntends(b, r);
    IntendedAnnounces(b.(work := Intending(r)), r);
    RunOnFour(s, Bridging, Resolve(r), Go, Go, Go);
  }

  lemma {:induction false} RunOnFour(s: State, h: seq<Step>, a: Step, b: Step, c: Step, d: Step)
    ensures Run(s, h + [a] + [b] + [c] + [d]) == Next(Next(Next(Next(Run(s, h), a), b), c), d)
  {
    RunSnoc(s, h, a);
    RunSnoc(s, h + [a], b);
    RunSnoc(s, h + [a] + [b], c);
    RunSnoc(s, h + [a] + [b] + [c], d);
  }

  lemma RespondThenRecord(a: State, r: Resolution, accepted: bool)
    requires a.work == Responding(r) && a.msg.attempt > 0 && a.msg.status == Queued && r.decision.Some?
    ensures var t := Next(Next(Next(a, Respond(true, accepted)), Go), Go);
      && t.work == Idle && t.msg == a.msg.(status := if accepted then Answered else Queued, tries := a.msg.tries + 1, updatedAt := 0, error := [])
      && t.log.responses == a.log.responses + [r.decision.value]
      && t.log.events == a.log.events + [if accepted then AnsweredEvent else QueuedEvent]
  {
    var b := Next(a, Respond(true, accepted));
    assert b.work == if accepted then Recording(r) else Retrying;
  }

  /**
   When nothing fails, every permission an adapter asked for under an attempt is put to it with the
   decision submitted: accepted, it is answered; refused, it stays queued with one more try.
   */
  lemma {:induction false} EveryPermissionReachesItsAdapter(s: State, r: Resolution, accepted: bool)
    requires Initial(s) && !s.waits && s.msg.attempt > 0 && Valid(PermissionRequest, r)
    ensures var t := Run(s, Announced(r) + [Respond(true, accepted)] + [Go] + [Go]);
      && t.msg.status == (if accepted then Answered else Queued) && Means(t.msg, r) && t.msg.tries == s.msg.tries + 1
      && t.log.responses == [r.decision.value] && t.work == Idle
      && t.log.events == [QueuedEvent, QueuedEvent, if accepted then AnsweredEvent else QueuedEvent]
  {
    AnnouncedInRun(s, r);
    ValidDecisions(PermissionRequest, r);
    var h := Announced(r);
    RespondThenRecord(Run(s, h), r, accepted);
    RunSnoc(s, h, Respond(true, accepted));
    RunSnoc(s, h + [Respond(true, accepted)], Go);
    RunSnoc(s, h + [Respond(true, accepted)] + [Go], Go);
  }

  // ----- a failing write or commit -----

  /** The stages at which a failure ends the call. */
  predicate Fragile(s: State) {
    match s.work
    case Answering(_) => true
    case Publishing => true
    case Announcing(_) => true
    case Retrying => true
    case Requeueing => true
    case Recording(_) => true
    case PublishingNative => true
    case Expiring => true
    case ExpirePublishing => true
    case Queueing => true
    case Setting => true
    case Widening(r) => Grants(s.msg.head.kind, r)
    case _ => false
  }

  /** Nothing was done; the call may have ended, and with it a request that was being set up. */
  predicate NothingDone(s: State, t: State) {
    && t.msg == s.msg && t.scope == s.scope && t.log == s.log
    && (Fragile(s) ==> t.work == Idle && t.asker == if s.work == Queueing || s.work == Setting then Done else s.asker)
  }

  lemma FailedFreeze(s: State, r: Resolution, now: int, next: Work)
    requires !Fragile(s)
    ensures NothingDone(s, DoFreeze(s, r, false, now, next))
  {
    FailedAfterFreeze(s, Freezes(s, r, now), r, next);
  }

  lemma FailedAfterFreeze(s: State, a: Attempt, r: Resolution, next: Work)
    requires !Fragile(s)
    ensures NothingDone(s, AfterFreeze(s, a, r, false, next))
  {
  }

  lemma FailureInResolve(s: State, now: int)
    requires s.work.Checking? || OrdinaryWork(s.work) || s.work == Notifying
    ensures NothingDone(s, AdvanceResolve(s, false, now))
  {
    match s.work {
      case Freezing(r) => FailedFreeze(s, r, now, Widening(r));
      case _ =>
    }
  }

  lemma FailureInNative(s: State, now: int)
    requires NativeWork(s.work) && !s.work.Responding?
    ensures NothingDone(s, AdvanceNative(s, false, now))
  {
    match s.work {
      case Intending(r) => FailedFreeze(s, r, now, Announcing(r));
      case _ =>
    }
  }

  lemma FailureInExpireOrAsk(s: State, now: int)
    requires !s.work.Checking? && !OrdinaryWork(s.work) && s.work != Notifying && !NativeWork(s.work)
    ensures NothingDone(s, DoAdvance(s, false, now))
  {
  }

  /** Whatever fails, message, scope, projections and adapter stay as they are and the lock comes free. */
  lemma FailureChangesNothing(s: State, now: int)
    ensures NothingDone(s, Next(s, Advance(false, now)))
  {
    if s.work.Checking? || OrdinaryWork(s.work) || s.work == Notifying {
      FailureInResolve(s, now);
    } else if NativeWork(s.work) && !s.work.Responding? {
      FailureInNative(s, now);
    } else if !s.work.Responding? {
      FailureInExpireOrAsk(s, now);
    }
  }

  /** A question that cannot be published: the request fails its message if that can be written, the bridge leaves it, and both return. */
  lemma UnpublishedQuestion(s: State, now: int, appended: bool, committed: bool)
    requires Inv(s) && s.work == Setting
    ensures var t := Next(s, PublishFails(now, appended, committed));
      && t.asker == Done && t.work == Idle && !t.registered && t.scope == s.scope
      && t.msg.status == (if s.waits && appended then Failed else Queued)
      && t.log.events == s.log.events + if s.waits && appended && committed then [FailedEvent] else []
  {
    TransitionEffect(s.msg, Failed, Nil, Some([]), now);
  }

  // ----- the calls made on the router are lawful -----

  /** The router call the holder of the lock makes next, if any. */
  function CallAt(s: State): Option<Op> {
    match s.work
    case Freezing(r) => Some(Freeze(Some(Tagged(r, []))))
    case Intending(r) => Some(Freeze(Some(Tagged(r, []))))
    case Answering(_) => Some(Transition(Answered, NoMode, FrozenBytes(s.msg), None))
    case Expiring => Some(Transition(Expired, NoMode, Nil, None))
    case Setting => Some(Transition(Failed, NoMode, Nil, Some([])))
    case Retrying => Some(Record(None, []))
    case Recording(_) => Some(Record(Some(Answered), []))
    case _ => None
  }

  /** So the journal of decision messages always replays: every call meets the router's precondition. */
  lemma {:induction false} CallsAreLawful(s: State, steps: seq<Step>)
    requires Initial(s)
    ensures var t := Run(s, steps);
      CallAt(t).Some? ==> Acceptable(CallAt(t).value, t.msg) && !Stale(CallAt(t).value, t.msg)
  {
    RunKeepsInv(s, steps);
  }
}
