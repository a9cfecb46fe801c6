/**
 The message router (internal/message/router.go:82-440, 518-552): every change of a message is
 appended to the journal first and then installed in the in-memory index, under a lock per message.
 The replay rules are stricter than the router's own checks, so each operation has the exact
 condition under which the record it writes will be accepted when the journal is replayed.
 */
module Router {
  import opened Text
  import opened Resolutions
  import opened Journal

  /** The resolution argument of Transition: nil, empty but not nil, or bytes. */
  datatype Argument = Nil | NoBytes | Given(raw: Raw)

  datatype Op =
    | Freeze(raw: Option<Raw>)
    | Reclassify(mode: Mode)
    | Record(next: Option<Status>, error: string)
    | Transition(to: Status, newMode: Mode, argument: Argument, cause: Option<string>)

  /** What an operation decides after reading the message: an error, nothing to do, or a new version. */
  datatype Attempt = Refuse | Keep | Write(candidate: Message)

  /** Compare a submitted resolution with the stored one by meaning. */
  function SameMeaning(kind: Type, stored: Raw, submitted: Raw): Attempt {
    match NormalizeResolution(kind, submitted)
    case Fails(_) => Refuse
    case Passes(submittedForm) =>
      match NormalizeResolution(kind, stored)
      case Fails(_) => Refuse
      case Passes(held) => if held == submittedForm then Keep else Refuse
  }

  function PrepareFreeze(raw: Option<Raw>, m: Message, now: int): Attempt {
    if raw.None? then Refuse
    else if m.resolution.Some? && (IsTerminal(m.status) || m.status == Queued) then
      SameMeaning(m.head.kind, m.resolution.value, raw.value)
    else if m.status != Queued then Refuse
    else
      match NormalizeResolution(m.head.kind, raw.value)
      case Fails(_) => Refuse
      case Passes(n) => Write(m.(resolution := Some(n), updatedAt := now))
  }

  function PrepareReclassify(mode: Mode, m: Message, now: int): Attempt {
    if m.head.kind != Instruction || m.status != Queued then Refuse
    else if m.mode == mode then Keep
    else if m.mode != NextTurn || mode != Resume then Refuse
    else Write(m.(mode := mode, updatedAt := now))
  }

  function PrepareRecord(next: Option<Status>, error: string, m: Message, now: int): Attempt {
    var to := if next.Some? then next.value else m.status;
    if !ValidTransition(m.status, to) then Refuse
    else Write(m.(tries := m.tries + 1, updatedAt := now, status := to, error := error))
  }

  function Replaced(argument: Argument, current: Option<Raw>): Option<Raw> {
    match argument
    case Nil => current
    case NoBytes => None
    case Given(raw) => Some(raw)
  }

  function PrepareTransition(to: Status, mode: Mode, argument: Argument, cause: Option<string>, m: Message, now: int): Attempt {
    if !ValidTransition(m.status, to) then Refuse
    else if m.status == to then
      if argument.Given? && m.resolution != Some(argument.raw) then Refuse else Keep
    else
      Write(m.(status := to, updatedAt := now, mode := if mode != NoMode then mode else m.mode,
               resolution := Replaced(argument, m.resolution),
               error := if cause.Some? then cause.value else m.error))
  }

  function Prepare(op: Op, m: Message, now: int): Attempt {
    match op
    case Freeze(raw) => PrepareFreeze(raw, m, now)
    case Reclassify(mode) => PrepareReclassify(mode, m, now)
    case Record(next, error) => PrepareRecord(next, error, m, now)
    case Transition(to, mode, argument, cause) => PrepareTransition(to, mode, argument, cause, m, now)
  }

  /** The re-check before installing, against the index entry found then. */
  predicate Installs(op: Op, latest: Message) {
    match op
    case Freeze(_) => !IsTerminal(latest.status)
    case Reclassify(_) => !IsTerminal(latest.status)
    case Record(next, _) => !IsTerminal(latest.status) || next == Some(latest.status)
    case Transition(to, _, _, _) => !IsTerminal(latest.status) || to == latest.status
  }

  // ----- when a written record is accepted on replay -----

  /** The status may be entered with this resolution. */
  predicate Carries(to: Status, kind: Type, resolution: Option<Raw>) {
    match to
    case Created => resolution.None?
    case Validated => resolution.None?
    case Delivered => resolution.None?
    case Queued => resolution.None? || IsDecisionType(kind)
    case Answered => resolution.Some?
    case Acknowledged => true
    case Expired => true
    case Failed => true
  }

  predicate ModeAllowed(mode: Mode, to: Status, m: Message) {
    || mode == NoMode || mode == m.mode
    || (m.mode == NoMode && m.head.kind == Instruction && KnownMode(mode) && (to == Validated || to == Queued))
  }

  predicate ResolutionAllowed(argument: Argument, to: Status, m: Message) {
    var result := Replaced(argument, m.resolution);
    (m.resolution.Some? ==> result == m.resolution) && Carries(to, m.head.kind, result)
  }

  /** What a caller can check beforehand: the record this call writes, if any, will be accepted. */
  predicate Acceptable(op: Op, m: Message) {
    match op
    case Freeze(_) => true
    case Reclassify(_) => true
    case Record(next, _) => next.Some? ==> Carries(next.value, m.head.kind, m.resolution)
    case Transition(to, mode, argument, _) => ModeAllowed(mode, to, m) && ResolutionAllowed(argument, to, m)
  }

  lemma FreezeAccepted(raw: Option<Raw>, m: Message, now: int)
    requires StatusFields(m) && m.updatedAt <= now && PrepareFreeze(raw, m, now).Write?
    ensures Lifecycle(m, PrepareFreeze(raw, m, now).candidate)
  {
    NormalizeKeepsMeaning(m.head.kind, raw.value);
    DecodedIsValid(m.head.kind, raw.value);
  }

  lemma ReclassifyAccepted(mode: Mode, m: Message, now: int)
    requires StatusFields(m) && m.updatedAt <= now && PrepareReclassify(mode, m, now).Write?
    ensures Lifecycle(m, PrepareReclassify(mode, m, now).candidate)
  {
  }

  lemma RecordAcceptedIff(next: Option<Status>, error: string, m: Message, now: int)
    requires StatusFields(m) && m.updatedAt <= now && PrepareRecord(next, error, m, now).Write?
    ensures Lifecycle(m, PrepareRecord(next, error, m, now).candidate) <==> Acceptable(Record(next, error), m)
  {
  }

  lemma TransitionAcceptedIff(to: Status, mode: Mode, argument: Argument, cause: Option<string>, m: Message, now: int)
    requires StatusFields(m) && m.updatedAt <= now && PrepareTransition(to, mode, argument, cause, m, now).Write?
    ensures Lifecycle(m, PrepareTransition(to, mode, argument, cause, m, now).candidate) <==>
            Acceptable(Transition(to, mode, argument, cause), m)
  {
    var c := PrepareTransition(to, mode, argument, cause, m, now).candidate;
    assert c.head == m.head && c.tries == m.tries && c.workerId == m.workerId && c.attempt == m.attempt;
    assert StatusFields(c) <==> ModePresence(c) && Carries(to, m.head.kind, c.resolution);
  }

  /** Exactly the acceptable calls write records that replay accepts. */
  lemma AcceptedIffAcceptable(op: Op, m: Message, now: int)
    requires StatusFields(m) && m.updatedAt <= now && Prepare(op, m, now).Write?
    ensures Lifecycle(m, Prepare(op, m, now).candidate) <==> Acceptable(op, m)
  {
    match op
    case Freeze(raw) => FreezeAccepted(raw, m, now);
    case Reclassify(mode) => ReclassifyAccepted(mode, m, now);
    case Record(next, error) => RecordAcceptedIff(next, error, m, now);
    case Transition(to, mode, argument, cause) => TransitionAcceptedIff(to, mode, argument, cause, m, now);
  }

  /** The call writes a record, rather than being refused or finding nothing to do. */
  predicate Writes(op: Op, m: Message) {
    Prepare(op, m, m.updatedAt).Write?
  }

  lemma WritesAtAnyTime(op: Op, m: Message, now: int)
    ensures Prepare(op, m, now).Write? <==> Writes(op, m)
  {
  }

  /** A delivery attempt without a new status on a message that is already terminal. */
  predicate Stale(op: Op, m: Message) {
    op.Record? && op.next.None? && IsTerminal(m.status)
  }

  /** The precondition of a call: if it writes, the record is acceptable and will be installed. */
  predicate MayCall(op: Op, m: Message) {
    Writes(op, m) ==> Acceptable(op, m) && !Stale(op, m)
  }

  /** With the entry unchanged since it was read, only a stale delivery attempt fails the re-check. */
  lemma RecheckFiresIffStale(op: Op, m: Message, now: int)
    requires Prepare(op, m, now).Write?
    ensures !Installs(op, m) <==> Stale(op, m)
  {
  }

  lemma CandidateKeepsHead(op: Op, m: Message, now: int)
    requires Prepare(op, m, now).Write?
    ensures Prepare(op, m, now).candidate.head == m.head && Prepare(op, m, now).candidate.updatedAt == now
  {
  }

  // ----- the interleaved machine -----

  /** A call in progress: it has read the message under its lock, or has appended the new version. */
  datatype Call =
    | Reading(op: Op, seen: Message, since: int)
    | Appended(writer: Option<Op>, candidate: Message)

  datatype State = State(runId: string, journal: seq<Message>, index: Index, calls: map<string, Call>, clock: int)

  datatype Step =
    | Tick(to: int)
    | Enqueue(value: Message)
    | Begin(id: string, op: Op)
    | Append(id: string, now: int, works: bool)
    | Install(id: string)
    | Crash

  /** The message an enqueue call creates; ids come from the random source and are new. */
  predicate Fresh(s: State, m: Message) {
    && m.head.id != [] && m.head.id !in s.index && m.head.id !in s.calls
    && m.head.runId == s.runId && m.head.kind != OtherType([])
    && m.status == Queued && m.tries == 0 && m.resolution.None?
    && m.updatedAt == m.head.createdAt <= s.clock
  }

  /** A decision message has no mode; an instruction gets the mode the caller chose. */
  predicate EnqueueAcceptable(m: Message) {
    m.mode == NoMode || (m.head.kind == Instruction && KnownMode(m.mode))
  }

  function ApplyAppend(s: State, id: string, now: int, works: bool): State
    requires id in s.calls && s.calls[id].Reading?
  {
    var c := s.calls[id];
    match Prepare(c.op, c.seen, now)
    case Refuse => s.(calls := s.calls - {id})
    case Keep => s.(calls := s.calls - {id})
    case Write(m) =>
      if works then s.(journal := s.journal + [m], calls := s.calls[id := Appended(Some(c.op), m)])
      else s.(calls := s.calls - {id})
  }

  function ApplyInstall(s: State, id: string): State
    requires id in s.calls && s.calls[id].Appended?
  {
    var c := s.calls[id];
    var installs := c.writer.Some? && id in s.index ==> Installs(c.writer.value, s.index[id]);
    s.(index := if installs then s.index[id := c.candidate] else s.index, calls := s.calls - {id})
  }

  /** A step that cannot be taken changes nothing. */
  function Next(s: State, step: Step): State {
    match step
    case Tick(to) => if s.clock <= to then s.(clock := to) else s
    case Enqueue(m) =>
      if Fresh(s, m) then s.(journal := s.journal + [m], calls := s.calls[m.head.id := Appended(None, m)]) else s
    case Begin(id, op) =>
      if id in s.index && id !in s.calls then s.(calls := s.calls[id := Reading(op, s.index[id], s.clock)]) else s
    case Append(id, now, works) =>
      if id in s.calls && s.calls[id].Reading? && s.calls[id].since <= now <= s.clock then ApplyAppend(s, id, now, works)
      else s
    case Install(id) => if id in s.calls && s.calls[id].Appended? then ApplyInstall(s, id) else s
    case Crash =>
      match Replay(s.journal)
      case None => s
      case Some(index) => s.(index := index, calls := map[])
  }

  function Run(s: State, steps: seq<Step>): State {
    if steps == [] then s else Next(Run(s, steps[..|steps| - 1]), steps[|steps| - 1])
  }

  /** Call preconditions, checkable by the caller before the call. */
  predicate Lawful(s: State, step: Step) {
    match step
    case Enqueue(m) => EnqueueAcceptable(m)
    case Begin(id, op) => id in s.index ==> MayCall(op, s.index[id])
    case Tick(_) => true
    case Append(_, _, _) => true
    case Install(_) => true
    case Crash => true
  }

  predicate LawfulRun(s: State, steps: seq<Step>) {
    steps == [] || (LawfulRun(s, steps[..|steps| - 1]) && Lawful(Run(s, steps[..|steps| - 1]), steps[|steps| - 1]))
  }

  /** The index with the records that are appended but not yet installed. */
  function Overlay(index: Index, calls: map<string, Call>): Index {
    map id | id in index.Keys + calls.Keys && (id in index || calls[id].Appended?) ::
      if id in calls && calls[id].Appended? then calls[id].candidate else index[id]
  }

  lemma OverlayWritten(index: Index, calls: map<string, Call>, id: string, c: Call)
    requires c.Appended?
    ensures Overlay(index, calls[id := c]) == Overlay(index, calls)[id := c.candidate]
  {
  }

  lemma OverlayRead(index: Index, calls: map<string, Call>, id: string, c: Call)
    requires c.Reading? && id in index && (id in calls ==> calls[id].Reading?)
    ensures Overlay(index, calls[id := c]) == Overlay(index, calls)
  {
  }

  lemma OverlayDropped(index: Index, calls: map<string, Call>, id: string)
    requires id in calls && calls[id].Reading?
    ensures Overlay(index, calls - {id}) == Overlay(index, calls)
  {
  }

  lemma OverlayInstalled(index: Index, calls: map<string, Call>, id: string)
    requires id in calls && calls[id].Appended?
    ensures Overlay(index[id := calls[id].candidate], calls - {id}) == Overlay(index, calls)
  {
  }

  predicate CallFits(s: State, id: string, c: Call) {
    match c
    case Reading(op, seen, since) =>
      && id in s.index && s.index[id] == seen && seen.updatedAt <= since <= s.clock
      && MayCall(op, seen)
    case Appended(op, m) =>
      && m.head.id == id && m.updatedAt <= s.clock && StatusFields(m) && Complete(m)
      && (op.None? ==> id !in s.index)
      && (op.Some? ==> id in s.index && Installs(op.value, s.index[id]))
  }

  predicate EntryFits(s: State, id: string, m: Message) {
    m.head.id == id && m.updatedAt <= s.clock && StatusFields(m) && Complete(m)
  }

  /** Journal and index agree, up to the records of calls caught between append and install. */
  ghost predicate Inv(s: State) {
    && s.runId != []
    && Replay(s.journal) == Some(Overlay(s.index, s.calls))
    && (forall id :: id in s.index ==> EntryFits(s, id, s.index[id]))
    && (forall id :: id in s.calls ==> CallFits(s, id, s.calls[id]))
  }

  function Init(runId: string, clock: int): State {
    State(runId, [], map[], map[], clock)
  }

  lemma InitInv(runId: string, clock: int)
    requires runId != []
    ensures Inv(Init(runId, clock))
  {
    assert Overlay(map[], map[]) == map[];
  }

  /** A call may be added, or replaced by a later stage of itself, without touching the others. */
  lemma CallAdded(s: State, t: State, id: string, c: Call)
    requires Inv(s) && t == s.(journal := t.journal, calls := s.calls[id := c]) && CallFits(s, id, c)
    ensures forall k :: k in t.calls ==> CallFits(t, k, t.calls[k])
    ensures forall k :: k in t.index ==> EntryFits(t, k, t.index[k])
  {
    forall k | k in t.calls
      ensures CallFits(t, k, t.calls[k])
    {
      assert k != id ==> CallFits(s, k, s.calls[k]);
    }
  }

  lemma EnqueueKeepsInv(s: State, m: Message)
    requires Inv(s) && Fresh(s, m) && EnqueueAcceptable(m)
    ensures Inv(Next(s, Enqueue(m)))
  {
    var t := Next(s, Enqueue(m));
    ReplayAppend(s.journal, m);
    OverlayWritten(s.index, s.calls, m.head.id, Appended(None, m));
    CallAdded(s, t, m.head.id, Appended(None, m));
  }

  lemma BeginKeepsInv(s: State, id: string, op: Op)
    requires Inv(s) && Lawful(s, Begin(id, op))
    ensures Inv(Next(s, Begin(id, op)))
  {
    if id in s.index && id !in s.calls {
      OverlayRead(s.index, s.calls, id, Reading(op, s.index[id], s.clock));
      assert EntryFits(s, id, s.index[id]);
      CallAdded(s, Next(s, Begin(id, op)), id, Reading(op, s.index[id], s.clock));
    }
  }

  lemma DropKeepsInv(s: State, id: string)
    requires Inv(s) && id in s.calls && s.calls[id].Reading?
    ensures Inv(s.(calls := s.calls - {id}))
  {
    OverlayDropped(s.index, s.calls, id);
  }

  /** The record a lawful call writes is accepted by replay and will pass the re-check. */
  lemma WrittenFits(s: State, id: string, now: int)
    requires Inv(s) && id in s.calls && s.calls[id].Reading? && s.calls[id].since <= now <= s.clock
    requires Prepare(s.calls[id].op, s.calls[id].seen, now).Write?
    ensures var m := Prepare(s.calls[id].op, s.calls[id].seen, now).candidate;
      Lifecycle(s.index[id], m) && Complete(m) && m.head.id == id && m.updatedAt == now && Installs(s.calls[id].op, s.index[id])
  {
    var c := s.calls[id];
    assert CallFits(s, id, c);
    WritesAtAnyTime(c.op, c.seen, now);
    AcceptedIffAcceptable(c.op, c.seen, now);
    RecheckFiresIffStale(c.op, c.seen, now);
    CandidateKeepsHead(c.op, c.seen, now);
  }

  lemma AppendKeepsInv(s: State, id: string, now: int, works: bool)
    requires Inv(s) && id in s.calls && s.calls[id].Reading? && s.calls[id].since <= now <= s.clock
    ensures Inv(ApplyAppend(s, id, now, works))
  {
    var c := s.calls[id];
    if Prepare(c.op, c.seen, now).Write? && works {
      WrittenFits(s, id, now);
      WriteKeepsInv(s, id, Prepare(c.op, c.seen, now).candidate);
    } else {
      DropKeepsInv(s, id);
    }
  }

  lemma WriteKeepsInv(s: State, id: string, m: Message)
    requires Inv(s) && id in s.calls && s.calls[id].Reading?
    requires Lifecycle(s.index[id], m) && Complete(m) && m.head.id == id && m.updatedAt <= s.clock
    requires Installs(s.calls[id].op, s.index[id])
    ensures Inv(s.(journal := s.journal + [m], calls := s.calls[id := Appended(Some(s.calls[id].op), m)]))
  {
    var calls := s.calls[id := Appended(Some(s.calls[id].op), m)];
    ReplayAppend(s.journal, m);
    assert Overlay(s.index, s.calls)[id] == s.index[id];
    OverlayWritten(s.index, s.calls, id, calls[id]);
    CallAdded(s, s.(journal := s.journal + [m], calls := calls), id, calls[id]);
  }

  lemma InstallKeepsInv(s: State, id: string)
    requires Inv(s) && id in s.calls && s.calls[id].Appended?
    ensures Inv(ApplyInstall(s, id))
  {
    var t := ApplyInstall(s, id);
    assert CallFits(s, id, s.calls[id]);
    assert t.index == s.index[id := s.calls[id].candidate];
    OverlayInstalled(s.index, s.calls, id);
    OthersFit(s, t, id);
  }

  /** Installing one message does not concern the calls on the others. */
  lemma OthersFit(s: State, t: State, id: string)
    requires Inv(s) && id in s.calls && t.clock == s.clock && t.calls == s.calls - {id}
    requires forall k :: k != id ==> (k in s.index <==> k in t.index) && (k in s.index ==> s.index[k] == t.index[k])
    ensures forall k :: k in t.calls ==> CallFits(t, k, t.calls[k])
  {
    forall k | k in t.calls
      ensures CallFits(t, k, t.calls[k])
    {
      assert CallFits(s, k, s.calls[k]);
    }
  }

  lemma OverlayFits(s: State, id: string)
    requires Inv(s) && id in Overlay(s.index, s.calls)
    ensures EntryFits(s, id, Overlay(s.index, s.calls)[id])
  {
    if id in s.calls {
      assert CallFits(s, id, s.calls[id]);
    }
  }

  lemma OverlayAlone(index: Index)
    ensures Overlay(index, map[]) == index
  {
  }

  lemma CrashKeepsInv(s: State)
    requires Inv(s)
    ensures Inv(Next(s, Crash))
  {
    var index := Overlay(s.index, s.calls);
    OverlayAlone(index);
    forall id | id in index
      ensures EntryFits(s, id, index[id])
    {
      OverlayFits(s, id);
    }
    var t := s.(index := index, calls := map[]);
    assert forall id :: id in t.index ==> EntryFits(t, id, t.index[id]);
    assert Next(s, Crash) == t;
  }

  lemma NextKeepsInv(s: State, step: Step)
    requires Inv(s) && Lawful(s, step)
    ensures Inv(Next(s, step))
  {
    match step
    case Tick(to) => assert Overlay(Next(s, step).index, Next(s, step).calls) == Overlay(s.index, s.calls);
    case Enqueue(m) =>
      if Fresh(s, m) {
        EnqueueKeepsInv(s, m);
      }
    case Begin(id, op) => BeginKeepsInv(s, id, op);
    case Append(id, now, works) =>
      if id in s.calls && s.calls[id].Reading? && s.calls[id].since <= now <= s.clock {
        AppendKeepsInv(s, id, now, works);
      }
    case Install(id) =>
      if id in s.calls && s.calls[id].Appended? {
        InstallKeepsInv(s, id);
      }
    case Crash => CrashKeepsInv(s);
  }

  /** Every lawful run, whatever its interleaving and crashes, keeps journal and index in agreement. */
  lemma {:induction false} RunKeepsInv(s: State, steps: seq<Step>)
    requires Inv(s) && LawfulRun(s, steps)
    ensures Inv(Run(s, steps))
  {
    if steps != [] {
      RunKeepsInv(s, steps[..|steps| - 1]);
      NextKeepsInv(Run(s, steps[..|steps| - 1]), steps[|steps| - 1]);
    }
  }

  /**
   The log leads the index by at most one record per locked message: away from calls between append
   and install the replayed entry is the index entry, and without such calls replay is the index.
   */
  predicate LeadsByOne(s: State) {
    && Replay(s.journal).Some?
    && var replayed := Replay(s.journal).value;
    && (forall id :: id in s.calls && s.calls[id].Appended? ==> id in replayed && replayed[id] == s.calls[id].candidate)
    && (forall id :: id in s.index && !(id in s.calls && s.calls[id].Appended?) ==>
          id in replayed && replayed[id] == s.index[id])
    && (forall id :: id in replayed ==> id in s.index || (id in s.calls && s.calls[id].Appended?))
    && ((forall id :: id in s.calls ==> s.calls[id].Reading?) ==> replayed == s.index)
  }

  lemma InvLeadsByOne(s: State)
    requires Inv(s)
    ensures LeadsByOne(s)
  {
    if forall id :: id in s.calls ==> s.calls[id].Reading? {
      assert Overlay(s.index, s.calls) == s.index;
    }
  }

  lemma {:induction false} JournalLeadsByOne(runId: string, clock: int, steps: seq<Step>)
    requires runId != [] && LawfulRun(Init(runId, clock), steps)
    ensures LeadsByOne(Run(Init(runId, clock), steps))
  {
    InitInv(runId, clock);
    RunKeepsInv(Init(runId, clock), steps);
    InvLeadsByOne(Run(Init(runId, clock), steps));
  }

  /** In no lawful run does a re-check before installing fire. */
  lemma {:induction false} RechecksNeverFire(runId: string, clock: int, steps: seq<Step>, id: string)
    requires runId != [] && LawfulRun(Init(runId, clock), steps)
    ensures var s := Run(Init(runId, clock), steps);
      id in s.calls && s.calls[id].Appended? ==>
        id in Next(s, Install(id)).index && Next(s, Install(id)).index[id] == s.calls[id].candidate
  {
    InitInv(runId, clock);
    RunKeepsInv(Init(runId, clock), steps);
    var s := Run(Init(runId, clock), steps);
    if id in s.calls && s.calls[id].Appended? {
      assert CallFits(s, id, s.calls[id]);
    }
  }

  // ----- the preconditions are exact -----

  /** A call that writes although it is not acceptable makes the journal impossible to replay. */
  lemma UnacceptableCallCorrupts(s: State, id: string, op: Op, now: int)
    requires Inv(s) && id in s.index && id !in s.calls && s.clock == now
    requires Prepare(op, s.index[id], now).Write? && !Acceptable(op, s.index[id])
    ensures Replay(Next(Next(s, Begin(id, op)), Append(id, now, true)).journal).None?
  {
    var m := Prepare(op, s.index[id], now).candidate;
    assert EntryFits(s, id, s.index[id]);
    AcceptedIffAcceptable(op, s.index[id], now);
    CandidateKeepsHead(op, s.index[id], now);
    ReplayAppend(s.journal, m);
    assert Overlay(s.index, s.calls)[id] == s.index[id];
  }

  lemma StaleRecordAccepted(s: State, id: string, op: Op, now: int)
    requires Inv(s) && id in s.index && s.calls == map[] && s.clock == now && Stale(op, s.index[id])
    ensures Prepare(op, s.index[id], now).Write?
    ensures var m := Prepare(op, s.index[id], now).candidate;
      Replay(s.journal + [m]) == Some(s.index[id := m]) && m.tries == s.index[id].tries + 1
  {
    var m := Prepare(op, s.index[id], now).candidate;
    assert EntryFits(s, id, s.index[id]);
    AcceptedIffAcceptable(op, s.index[id], now);
    ReplayAppend(s.journal, m);
    assert Overlay(s.index, s.calls) == s.index;
  }

  /** Concretely: failing a queued resume instruction as unsupported (internal/supervisor/messages.go:1391). */
  lemma ResumeToUnsupportedRejected(m: Message, now: int, cause: string)
    requires m.status == Queued && m.mode == Resume && m.head.kind == Instruction && m.resolution.None? && m.updatedAt <= now
    ensures var op := Transition(Failed, Unsupported, Nil, Some(cause));
      Prepare(op, m, now).Write? && !Lifecycle(m, Prepare(op, m, now).candidate)
  {
  }

  // ----- the router as callers see it -----

  datatype Store = Store(journal: seq<Message>, index: Index)

  /** One whole call, with its lock held from the read to the install. */
  function Perform(st: Store, id: string, op: Op, now: int, works: bool): Store {
    if id !in st.index then st
    else
      match Prepare(op, st.index[id], now)
      case Refuse => st
      case Keep => st
      case Write(m) =>
        if !works then st
        else Store(st.journal + [m], if Installs(op, st.index[id]) then st.index[id := m] else st.index)
  }

  /** A whole call is three steps of the machine with nothing in between. */
  lemma PerformIsThreeSteps(s: State, id: string, op: Op, works: bool)
    requires id !in s.calls
    ensures var t := Next(Next(Next(s, Begin(id, op)), Append(id, s.clock, works)), Install(id));
      Store(t.journal, t.index) == Perform(Store(s.journal, s.index), id, op, s.clock, works) && t.calls == s.calls
  {
    if id in s.index {
      var a := Next(s, Begin(id, op));
      assert a.calls - {id} == s.calls;
      var b := Next(a, Append(id, s.clock, works));
      assert b.calls - {id} == s.calls;
    }
  }

  /** A stale delivery attempt leaves the journal ahead of the index with no call in progress. */
  lemma StaleAttemptDiverges(s: State, id: string, op: Op)
    requires Inv(s) && id in s.index && s.calls == map[] && Stale(op, s.index[id])
    ensures var t := Next(Next(Next(s, Begin(id, op)), Append(id, s.clock, true)), Install(id));
      && t.calls == map[] && t.index == s.index
      && Replay(t.journal).Some? && Replay(t.journal).value != t.index
  {
    StaleRecordAccepted(s, id, op, s.clock);
    PerformIsThreeSteps(s, id, op, true);
    var m := Prepare(op, s.index[id], s.clock).candidate;
    assert s.index[id := m][id] != s.index[id];
  }

  /** A store whose journal replays to its index. */
  ghost predicate Agrees(st: Store) {
    Replay(st.journal) == Some(st.index)
  }

  lemma PerformKeepsAgreement(st: Store, id: string, op: Op, now: int, works: bool)
    requires Agrees(st)
    requires id in st.index ==> st.index[id].updatedAt <= now && MayCall(op, st.index[id])
    ensures Agrees(Perform(st, id, op, now, works))
  {
    ReplayWellKept(st.journal);
    if id in st.index {
      WritesAtAnyTime(op, st.index[id], now);
    }
    if id in st.index && Prepare(op, st.index[id], now).Write? {
      AcceptedIffAcceptable(op, st.index[id], now);
      RecheckFiresIffStale(op, st.index[id], now);
      CandidateKeepsHead(op, st.index[id], now);
      ReplayAppend(st.journal, Prepare(op, st.index[id], now).candidate);
    }
  }

  // ----- a message's whole life -----

  /** Index and replayed journal both have the message in this status. */
  ghost predicate Shows(st: Store, id: string, status: Status) {
    Agrees(st) && id in st.index && st.index[id].status == status
  }

  function Enqueued(st: Store, m: Message): Store {
    Store(st.journal + [m], st.index[m.head.id := m])
  }

  lemma EnqueueShows(st: Store, m: Message)
    requires Agrees(st) && m.head.id !in st.index && Complete(m) && m.status == Queued && m.resolution.None? && EnqueueAcceptable(m)
    ensures Shows(Enqueued(st, m), m.head.id, Queued)
  {
    ReplayAppend(st.journal, m);
  }

  /** A lawful call that writes leaves its record in index and journal. */
  lemma CallShows(st: Store, id: string, op: Op, now: int)
    requires Agrees(st) && id in st.index && st.index[id].updatedAt <= now && MayCall(op, st.index[id])
    requires Prepare(op, st.index[id], now).Write?
    ensures var t := Perform(st, id, op, now, true);
      Agrees(t) && id in t.index && t.index[id] == Prepare(op, st.index[id], now).candidate
  {
    PerformKeepsAgreement(st, id, op, now, true);
    WritesAtAnyTime(op, st.index[id], now);
    RecheckFiresIffStale(op, st.index[id], now);
  }

  /** Queued, delivered, acknowledged, answered: after each call index and replayed journal show it. */
  ghost predicate LivesThrough(st: Store, m: Message, error: string, raw: Raw, now: int) {
    var id, queued := m.head.id, Enqueued(st, m);
    var delivered := Perform(queued, id, Record(Some(Delivered), error), now, true);
    var acknowledged := Perform(delivered, id, Transition(Acknowledged, NoMode, Nil, None), now, true);
    var answered := Perform(acknowledged, id, Transition(Answered, NoMode, Given(raw), None), now, true);
    && Shows(queued, id, Queued) && Shows(delivered, id, Delivered) && delivered.index[id].tries == m.tries + 1
    && Shows(acknowledged, id, Acknowledged) && Shows(answered, id, Answered) && answered.index[id].resolution == Some(raw)
  }

  lemma InstructionLives(st: Store, m: Message, error: string, raw: Raw, now: int)
    requires Agrees(st) && m.head.id !in st.index && Complete(m) && m.status == Queued && m.resolution.None?
    requires EnqueueAcceptable(m) && m.head.kind == Instruction && m.updatedAt <= now
    ensures LivesThrough(st, m, error, raw, now)
  {
    var id, queued := m.head.id, Enqueued(st, m);
    EnqueueShows(st, m);
    CallShows(queued, id, Record(Some(Delivered), error), now);
    var delivered := Perform(queued, id, Record(Some(Delivered), error), now, true);
    CallShows(delivered, id, Transition(Acknowledged, NoMode, Nil, None), now);
    var acknowledged := Perform(delivered, id, Transition(Acknowledged, NoMode, Nil, None), now, true);
    CallShows(acknowledged, id, Transition(Answered, NoMode, Given(raw), None), now);
  }

  /** From the start, behind any lawful run with no call under way, every new instruction can live through all its stages. */
  lemma {:induction false} InstructionLife(runId: string, clock: int, steps: seq<Step>, m: Message, error: string, raw: Raw, now: int)
    requires runId != [] && LawfulRun(Init(runId, clock), steps) && Run(Init(runId, clock), steps).calls == map[]
    requires Fresh(Run(Init(runId, clock), steps), m) && EnqueueAcceptable(m) && m.head.kind == Instruction && m.updatedAt <= now
    ensures var s := Run(Init(runId, clock), steps); LivesThrough(Store(s.journal, s.index), m, error, raw, now)
  {
    var s := Run(Init(runId, clock), steps);
    JournalLeadsByOne(runId, clock, steps);
    RunIdStays(Init(runId, clock), steps);
    InstructionLives(Store(s.journal, s.index), m, error, raw, now);
  }

  lemma {:induction false} RunIdStays(s: State, steps: seq<Step>)
    ensures Run(s, steps).runId == s.runId
  {
    if steps != [] {
      RunIdStays(s, steps[..|steps| - 1]);
    }
  }

  /** The messages of a task that are not terminal. */
  function Pending(index: Index, taskId: string): set<string> {
    set id | id in index && index[id].head.taskId == taskId && !IsTerminal(index[id].status)
  }

  function ExpiredForm(m: Message, cause: Option<string>, now: int): Message {
    m.(status := Expired, updatedAt := now, error := if cause.Some? then cause.value else m.error)
  }

  function ExpireSome(index: Index, ids: set<string>, cause: Option<string>, times: string -> int): Index {
    map id | id in index :: if id in ids then ExpiredForm(index[id], cause, times(id)) else index[id]
  }

  /** The clock read for each message is not before its last change. */
  ghost predicate InTime(index: Index, ids: set<string>, times: string -> int) {
    forall id :: id in ids && id in index ==> index[id].updatedAt <= times(id)
  }

  /** The message can be expired: its status allows it and its record can be written. */
  predicate Expirable(index: Index, id: string, works: string -> bool) {
    id in index && Allows(index[id].status, Expired) && works(id)
  }

  datatype FreezeResult = Frozen | AlreadyIdentical | Conflict

  class Router {
    const runId: string
    var journal: seq<Message>
    var index: Index

    ghost function View(): Store
      reads this
    {
      Store(journal, index)
    }

    /** The journal is the store's file; the index is what replaying it gave. */
    constructor (runId: string, journal: seq<Message>, initial: Index)
      ensures this.runId == runId && this.journal == journal && index == initial
    {
      this.runId, this.journal, index := runId, journal, initial;
    }

    method EnqueueInstruction(id: string, taskId: string, workerId: string, attempt: int, text: string, mode: Mode,
                              now: int, works: bool)
      returns (ok: bool)
      requires id !in index
      modifies this
      ensures ok <==> !Blank(taskId) && !Blank(text) && works
      ensures !ok ==> View() == old(View())
      ensures ok ==>
                var m := Message(Head("v1alpha1", id, runId, taskId, Instruction, [], [], now, text), workerId, attempt,
                                 Queued, now, mode, 0, [], None);
                journal == old(journal) + [m] && index == old(index)[id := m]
      ensures ok && id != [] && runId != [] && Agrees(old(View())) ==>
                (Replay(journal) == Some(index) <==> mode == NoMode || KnownMode(mode))
    {
      if Blank(taskId) || Blank(text) || !works {
        return false;
      }
      var m := Message(Head("v1alpha1", id, runId, taskId, Instruction, [], [], now, text), workerId, attempt,
                       Queued, now, mode, 0, [], None);
      ReplayAppend(journal, m);
      journal := journal + [m];
      index := index[id := m];
      ok := true;
    }

    method EnqueueDecision(id: string, taskId: string, workerId: string, attempt: int, kind: Type, category: string,
                           payload: string, now: int, works: bool)
      returns (ok: bool)
      requires id !in index
      modifies this
      ensures ok <==> !Blank(taskId) && kind != OtherType([]) && works
      ensures !ok ==> View() == old(View())
      ensures ok ==>
                var m := Message(Head("v1alpha1", id, runId, taskId, kind, category, [], now, payload), workerId, attempt,
                                 Queued, now, NoMode, 0, [], None);
                journal == old(journal) + [m] && index == old(index)[id := m]
      ensures ok && id != [] && runId != [] && Agrees(old(View())) ==> Agrees(View())
    {
      if Blank(taskId) || kind == OtherType([]) || !works {
        return false;
      }
      var m := Message(Head("v1alpha1", id, runId, taskId, kind, category, [], now, payload), workerId, attempt,
                       Queued, now, NoMode, 0, [], None);
      ReplayAppend(journal, m);
      journal := journal + [m];
      index := index[id := m];
      ok := true;
    }

    /** Compare against the resolution already stored. */
    method CompareStored(kind: Type, stored: Raw, submitted: Raw) returns (result: FreezeResult)
      ensures result == if SameMeaning(kind, stored, submitted) == Keep then AlreadyIdentical else Conflict
      ensures result == AlreadyIdentical <==> ResolutionsEqualForType(kind, stored, submitted)
    {
      EqualIffSameMeaning(kind, stored, submitted);
      NormalFormsDecide(kind, stored, submitted);
      var normalized := NormalizeResolution(kind, submitted);
      if normalized.Fails? {
        return Conflict;
      }
      var existing := NormalizeResolution(kind, stored);
      if existing.Passes? && existing.value == normalized.value {
        return AlreadyIdentical;
      }
      result := Conflict;
    }

    method FreezeResolution(id: string, raw: Option<Raw>, now: int, works: bool) returns (result: FreezeResult)
      modifies this
      ensures View() == Perform(old(View()), id, Freeze(raw), now, works)
      ensures result == Frozen <==>
                id in old(index) && works && PrepareFreeze(raw, old(index)[id], now).Write?
      ensures result == AlreadyIdentical <==>
                id in old(index) && PrepareFreeze(raw, old(index)[id], now).Keep?
    {
      if raw.None? || id !in index {
        return Conflict;
      }
      var current := index[id];
      if IsTerminal(current.status) {
        if current.resolution.None? {
          return Conflict;
        }
        result := CompareStored(current.head.kind, current.resolution.value, raw.value);
        return;
      }
      if current.status != Queued {
        return Conflict;
      }
      if current.resolution.Some? {
        result := CompareStored(current.head.kind, current.resolution.value, raw.value);
        return;
      }
      var normalized := NormalizeResolution(current.head.kind, raw.value);
      if normalized.Fails? || !works {
        return Conflict;
      }
      var candidate := current.(resolution := Some(normalized.value), updatedAt := now);
      journal := journal + [candidate];
      index := index[id := candidate];
      result := Frozen;
    }

    method ReclassifyDelivery(id: string, mode: Mode, now: int, works: bool) returns (ok: bool)
      modifies this
      ensures View() == Perform(old(View()), id, Reclassify(mode), now, works)
      ensures ok ==> id in index && index[id].mode == mode && index[id].status == Queued
      ensures !ok ==> View() == old(View())
    {
      if id !in index {
        return false;
      }
      var current := index[id];
      if current.head.kind != Instruction || current.status != Queued {
        return false;
      }
      if current.mode == mode {
        return true;
      }
      if !(current.mode == NextTurn && mode == Resume) || !works {
        return false;
      }
      var candidate := current.(mode := mode, updatedAt := now);
      journal := journal + [candidate];
      index := index[id := candidate];
      ok := true;
    }

    /** The re-check that can fire: an attempt without a new status on a terminal message. */
    method RecordDeliveryAttempt(id: string, next: Option<Status>, error: string, now: int, works: bool) returns (ok: bool)
      modifies this
      ensures View() == Perform(old(View()), id, Record(next, error), now, works)
      ensures ok ==> id in index && index[id].tries == old(index)[id].tries + 1
      ensures ok <==> index != old(index)
      ensures ok <==> id in old(index) && works &&
                      if next.Some? then ValidTransition(old(index)[id].status, next.value) else !IsTerminal(old(index)[id].status)
    {
      if id !in index {
        return false;
      }
      var current := index[id];
      var candidate := current.(tries := current.tries + 1, updatedAt := now);
      if next.Some? && next.value != current.status {
        if !ValidTransition(current.status, next.value) {
          return false;
        }
        candidate := candidate.(status := next.value);
      }
      candidate := candidate.(error := error);
      if !works {
        return false;
      }
      journal := journal + [candidate];
      if IsTerminal(current.status) && next != Some(current.status) {
        return false;
      }
      index := index[id := candidate];
      assert index[id] != old(index)[id];
      ok := true;
    }

    /** The new version of the message, field by field. */
    method Changed(current: Message, to: Status, mode: Mode, argument: Argument, cause: Option<string>, now: int)
      returns (candidate: Message)
      requires ValidTransition(current.status, to) && current.status != to
      ensures PrepareTransition(to, mode, argument, cause, current, now) == Write(candidate)
    {
      candidate := current.(status := to, updatedAt := now);
      if mode != NoMode {
        candidate := candidate.(mode := mode);
      }
      if argument != Nil {
        candidate := candidate.(resolution := if argument.Given? then Some(argument.raw) else None);
      }
      if cause.Some? {
        candidate := candidate.(error := cause.value);
      }
    }

    /** Expire one pending message. */
    method ExpireOne(id: string, cause: Option<string>, now: int, works: bool) returns (ok: bool)
      requires id in index && !IsTerminal(index[id].status)
      modifies this
      ensures old(Agrees(View()) && index[id].updatedAt <= now) ==> Agrees(View())
      ensures ok <==> works && Allows(old(index)[id].status, Expired)
      ensures index == if ok then old(index)[id := ExpiredForm(old(index)[id], cause, now)] else old(index)
    {
      if Agrees(View()) && index[id].updatedAt <= now {
        PerformKeepsAgreement(View(), id, Op.Transition(Expired, NoMode, Nil, cause), now, works);
      }
      ok := Transition(id, Expired, NoMode, Nil, cause, now, works);
    }

    method Transition(id: string, to: Status, mode: Mode, argument: Argument, cause: Option<string>, now: int, works: bool)
      returns (ok: bool)
      modifies this
      ensures View() == Perform(old(View()), id, Op.Transition(to, mode, argument, cause), now, works)
      ensures ok ==> id in index && index[id].status == to
      ensures !ok ==> View() == old(View())
      ensures ok <==> id in old(index) && !PrepareTransition(to, mode, argument, cause, old(index)[id], now).Refuse? &&
                      (PrepareTransition(to, mode, argument, cause, old(index)[id], now).Write? ==> works)
    {
      if id !in index {
        return false;
      }
      var attempt := Consider(index[id], to, mode, argument, cause, now);
      match attempt {
        case Refuse => ok := false;
        case Keep => ok := true;
        case Write(candidate) =>
          if !works {
            return false;
          }
          journal := journal + [candidate];
          index := index[id := candidate];
          ok := true;
      }
    }

    /** The checks of Transition; the same status again is no change unless another resolution comes with it. */
    method Consider(current: Message, to: Status, mode: Mode, argument: Argument, cause: Option<string>, now: int)
      returns (a: Attempt)
      ensures a == PrepareTransition(to, mode, argument, cause, current, now)
    {
      if !ValidTransition(current.status, to) {
        return Refuse;
      }
      if current.status == to {
        return if argument.Given? && current.resolution != Some(argument.raw) then Refuse else Keep;
      }
      var candidate := Changed(current, to, mode, argument, cause, now);
      a := Write(candidate);
    }

    /**
     ExpireTask: expires the task's pending messages in order of their ids and stops at the first
     that cannot be, because of its status or because its record cannot be written; success means
     none is left, and nothing else changes. Each message has its own time and its own write.
     */
    method ExpireTask(taskId: string, cause: Option<string>, times: string -> int, works: string -> bool)
      returns (expired: seq<string>, ok: bool)
      modifies this
      ensures old(Agrees(View())) && InTime(old(index), Pending(old(index), taskId), times) ==> Agrees(View())
      ensures Elements(expired) <= Pending(old(index), taskId)
      ensures index == ExpireSome(old(index), Elements(expired), cause, times)
      ensures ok <==> !Blank(taskId) && forall id :: id in Pending(old(index), taskId) ==> Expirable(old(index), id, works)
      ensures ok ==> Pending(index, taskId) == {} && Elements(expired) == Pending(old(index), taskId)
    {
      expired := [];
      ExpireNone(index, cause, times);
      if Blank(taskId) {
        return expired, false;
      }
      var ids := SortedSet(Pending(index, taskId));
      assert forall k :: 0 <= k < |ids| ==> ids[k] in Elements(ids);
      expired, ok := ExpireList(ids, cause, times, works);
      ExpireAllLeavesNone(old(index), taskId, cause, times);
    }

    /** The loop: a first part of the list is expired, all of it when every message can be. */
    method ExpireList(ids: seq<string>, cause: Option<string>, times: string -> int, works: string -> bool)
      returns (expired: seq<string>, ok: bool)
      requires StrictlySorted(ids)
      requires forall k :: 0 <= k < |ids| ==> ids[k] in index && !IsTerminal(index[ids[k]].status)
      modifies this
      ensures old(Agrees(View())) && InTime(old(index), Elements(ids), times) ==> Agrees(View())
      ensures expired <= ids && (ok ==> expired == ids)
      ensures ok <==> forall id :: id in Elements(ids) ==> Expirable(old(index), id, works)
      ensures index == ExpireSome(old(index), Elements(expired), cause, times)
    {
      expired := [];
      ExpireNone(index, cause, times);
      for i := 0 to |ids|
        invariant old(Agrees(View())) && InTime(old(index), Elements(ids), times) ==> Agrees(View())
        invariant expired == ids[..i]
        invariant forall k :: 0 <= k < i ==> Expirable(old(index), ids[k], works)
        invariant index == ExpireSome(old(index), Elements(expired), cause, times)
      {
        ExpireOneMore(old(index), ids, i, cause, times);
        assert ids[i] in Elements(ids);
        var done := ExpireOne(ids[i], cause, times(ids[i]), works(ids[i]));
        if !done {
          return expired, false;
        }
        expired := expired + [ids[i]];
        assert ids[..i + 1] == ids[..i] + [ids[i]];
      }
      ok := true;
    }
  }

  lemma ExpireNone(index: Index, cause: Option<string>, times: string -> int)
    ensures Elements([]) == {} && ExpireSome(index, {}, cause, times) == index
  {
  }

  lemma ExpireAllLeavesNone(index: Index, taskId: string, cause: Option<string>, times: string -> int)
    ensures Pending(ExpireSome(index, Pending(index, taskId), cause, times), taskId) == {}
  {
  }

  lemma NormalFormsDecide(kind: Type, left: Raw, right: Raw)
    ensures SameMeaning(kind, left, right) == Keep <==> ResolutionsEqualForType(kind, left, right)
  {
    EqualIffSameMeaning(kind, left, right);
    NormalizeKeepsMeaning(kind, left);
    NormalizeKeepsMeaning(kind, right);
  }

  /** The next id is still pending, untouched by the expiries before it. */
  lemma ExpireOneMore(index: Index, ids: seq<string>, i: nat, cause: Option<string>, times: string -> int)
    requires i < |ids| && StrictlySorted(ids) && forall k :: 0 <= k < |ids| ==> ids[k] in index && !IsTerminal(index[ids[k]].status)
    ensures ids[i] !in Elements(ids[..i])
    ensures ExpireSome(index, Elements(ids[..i]), cause, times)[ids[i]] == index[ids[i]]
    ensures ExpireSome(index, Elements(ids[..i + 1]), cause, times) ==
            ExpireSome(index, Elements(ids[..i]), cause, times)[ids[i] := ExpiredForm(index[ids[i]], cause, times(ids[i]))]
  {
    if ids[i] in ids[..i] {
      var k :| 0 <= k < i && ids[k] == ids[i];
      SortedNoRepeat(ids, k, i);
    }
    assert ids[..i + 1] == ids[..i] + [ids[i]];
  }
}
