/**
 Messages and the rules a journal of message records must obey to be replayed
 (internal/message/message.go:66-135, internal/message/store.go:108-317).
 */
module Journal {
  import opened Text
  import opened Resolutions

  datatype Status = Created | Validated | Queued | Delivered | Acknowledged | Answered | Expired | Failed

  datatype Mode = NoMode | Immediate | NextTurn | Resume | Unsupported | OtherMode(name: string)

  /** Fields no record may change. */
  datatype Head = Head(schema: string, id: string, runId: string, taskId: string, kind: Type, category: string,
                       inReplyTo: string, createdAt: int, payload: string)

  datatype Message = Message(head: Head, workerId: string, attempt: int, status: Status, updatedAt: int, mode: Mode,
                             tries: int, error: string, resolution: Option<Raw>)

  type Index = map<string, Message>

  predicate IsTerminal(s: Status) {
    s == Answered || s == Expired || s == Failed
  }

  /** The table of status changes. */
  predicate Allows(from: Status, to: Status) {
    match from
    case Created => to == Validated || to == Failed
    case Validated => to == Queued || to == Failed
    case Queued => to == Delivered || to == Answered || to == Expired || to == Failed
    case Delivered => to == Acknowledged || to == Answered || to == Expired || to == Failed
    case Acknowledged => to == Answered || to == Expired || to == Failed
    case Answered => false
    case Expired => false
    case Failed => false
  }

  predicate ValidTransition(from: Status, to: Status) {
    from == to || (!IsTerminal(from) && Allows(from, to))
  }

  /** The terminal statuses are exactly those the table never leaves. */
  lemma TerminalIsFinal(s: Status)
    ensures IsTerminal(s) <==> forall to :: ValidTransition(s, to) ==> to == s
  {
    if !IsTerminal(s) {
      assert ValidTransition(s, Failed);
    }
  }

  /** How far a message has come; none when it has ended. */
  function Stage(s: Status): Option<nat> {
    match s
    case Created => Some(0)
    case Validated => Some(1)
    case Queued => Some(2)
    case Delivered => Some(3)
    case Acknowledged => Some(4)
    case Answered => None
    case Expired => None
    case Failed => None
  }

  /** The table as a law: a message may fail, take the next stage, or be answered or expire once it is queued, until it has ended. */
  lemma TransitionLaw(from: Status, to: Status)
    ensures ValidTransition(from, to) <==>
            || from == to
            || (&& Stage(from).Some?
                && (|| to == Failed
                    || Stage(to) == Some(Stage(from).value + 1)
                    || ((to == Answered || to == Expired) && Stage(from).value >= 2)))
    ensures IsTerminal(from) <==> Stage(from).None?
  {
  }

  predicate KnownMode(m: Mode) {
    m == Immediate || m == NextTurn || m == Resume || m == Unsupported
  }

  predicate ModePresence(m: Message) {
    m.mode == NoMode || (m.head.kind == Instruction && KnownMode(m.mode))
  }

  predicate StatusFields(m: Message) {
    && ModePresence(m)
    && match m.status
       case Created => m.resolution.None?
       case Validated => m.resolution.None?
       case Delivered => m.resolution.None?
       case Queued => m.resolution.None? || IsDecisionType(m.head.kind)
       case Answered => m.resolution.Some?
       case Acknowledged => true
       case Expired => true
       case Failed => true
  }

  predicate FirstModeAssignment(m: Message) {
    m.mode == NoMode || (ModePresence(m) && (m.status == Validated || m.status == Queued))
  }

  predicate ModeFollows(prev: Message, next: Message) {
    if prev.mode == NoMode then FirstModeAssignment(next)
    else
      || next.mode == prev.mode
      || (&& prev.head.kind == Instruction && prev.status == Queued && next.status == Queued
          && prev.mode == NextTurn && next.mode == Resume)
  }

  /** validateMessageLifecycle. */
  predicate Lifecycle(prev: Message, next: Message) {
    && StatusFields(next)
    && prev.head == next.head
    && ModeFollows(prev, next)
    && prev.updatedAt <= next.updatedAt
    && prev.tries <= next.tries
    && (prev.workerId != [] ==> next.workerId == prev.workerId)
    && (prev.attempt > 0 ==> next.attempt == prev.attempt)
    && (prev.resolution.Some? ==> next.resolution == prev.resolution)
    && ValidTransition(prev.status, next.status)
  }

  predicate Complete(m: Message) {
    m.head.id != [] && m.head.runId != [] && m.head.kind != OtherType([])
  }

  /** Whether replay accepts the record after the records summed up in the index. */
  predicate Accepts(index: Index, m: Message) {
    && Complete(m)
    && if m.head.id in index then Lifecycle(index[m.head.id], m) else StatusFields(m) && FirstModeAssignment(m)
  }

  /** What replaying a journal gives; none when a record is refused. */
  function Replay(records: seq<Message>): Option<Index> {
    if records == [] then Some(map[])
    else
      var last := records[|records| - 1];
      match Replay(records[..|records| - 1])
      case None => None
      case Some(index) => if Accepts(index, last) then Some(index[last.head.id := last]) else None
  }

  lemma {:induction false} ReplayAppend(records: seq<Message>, m: Message)
    ensures Replay(records + [m]) ==
            match Replay(records)
            case None => None
            case Some(index) => if Accepts(index, m) then Some(index[m.head.id := m]) else None
  {
    var all := records + [m];
    assert all[..|all| - 1] == records;
  }

  lemma {:induction false} ReplayPrefix(records: seq<Message>, i: nat)
    requires i <= |records| && Replay(records).Some?
    ensures Replay(records[..i]).Some?
  {
    if i < |records| {
      ReplayPrefix(records[..|records| - 1], i);
      assert records[..|records| - 1][..i] == records[..i];
    } else {
      assert records[..i] == records;
    }
  }

  /** ReplayDetailed after the lines are decoded: the accepted records, and whether all were. */
  method ReplayRecords(records: seq<Message>) returns (accepted: nat, index: Index)
    ensures accepted <= |records| && Replay(records[..accepted]) == Some(index)
    ensures accepted < |records| ==> Replay(records).None?
    ensures accepted == |records| ==> Replay(records) == Some(index)
  {
    accepted, index := 0, map[];
    while accepted < |records|
      invariant accepted <= |records| && Replay(records[..accepted]) == Some(index)
    {
      var m := records[accepted];
      assert records[..accepted + 1] == records[..accepted] + [m];
      ReplayAppend(records[..accepted], m);
      if !Accepts(index, m) {
        if Replay(records).Some? {
          ReplayPrefix(records, accepted + 1);
        }
        return;
      }
      index := index[m.head.id := m];
      accepted := accepted + 1;
    }
    assert records[..|records|] == records;
  }

  /** A journal may begin with exactly such a record. */
  lemma FirstRecordIff(m: Message)
    ensures Replay([m]).Some? <==>
            && m.head.id != [] && m.head.runId != [] && m.head.kind != OtherType([])
            && (m.mode != NoMode ==>
                  m.head.kind == Instruction && m.mode in {Immediate, NextTurn, Resume, Unsupported} && m.status in {Validated, Queued})
            && (m.status == Answered ==> m.resolution.Some?)
            && (m.resolution.Some? ==>
                  m.status in {Acknowledged, Answered, Expired, Failed} || (m.status == Queued && IsDecisionType(m.head.kind)))
  {
    assert [m][..0] == [];
  }

  // ----- what acceptance means for a message's whole history -----

  /** How a later record of a message relates to any earlier one. */
  predicate Descends(a: Message, b: Message) {
    && a.head == b.head
    && a.updatedAt <= b.updatedAt
    && a.tries <= b.tries
    && (a.workerId != [] ==> b.workerId == a.workerId)
    && (a.attempt > 0 ==> b.attempt == a.attempt)
    && (a.resolution.Some? ==> b.resolution == a.resolution)
    && (IsTerminal(a.status) ==> b.status == a.status)
    && (Stage(b.status).Some? ==> Stage(a.status).Some? && Stage(a.status).value <= Stage(b.status).value)
    && (a.mode == NoMode || b.mode == a.mode || (a.mode == NextTurn && b.mode == Resume))
  }

  lemma LifecycleDescends(prev: Message, next: Message)
    requires Lifecycle(prev, next)
    ensures Descends(prev, next)
  {
  }

  lemma DescendsTransitive(a: Message, b: Message, c: Message)
    requires Descends(a, b) && Descends(b, c)
    ensures Descends(a, c)
  {
  }

  lemma {:induction false} LastDescends(records: seq<Message>, i: nat)
    requires i < |records| && Replay(records).Some?
    ensures var id := records[i].head.id;
      id in Replay(records).value && Descends(records[i], Replay(records).value[id])
  {
    var n := |records| - 1;
    if i < n {
      LastDescends(records[..n], i);
      var index, last := Replay(records[..n]).value, records[n];
      if last.head.id == records[i].head.id {
        LifecycleDescends(index[last.head.id], last);
        DescendsTransitive(records[i], index[last.head.id], last);
      }
    }
  }

  /**
   In a journal replay accepts, any two records of one message agree on everything immutable, the
   later has no smaller counters and no earlier stage, keeps a set worker, attempt, mode and
   resolution, and a terminal status is never left.
   */
  lemma {:induction false} HistoryIsStable(records: seq<Message>, i: nat, j: nat)
    requires i < j < |records| && records[i].head.id == records[j].head.id && Replay(records).Some?
    ensures Descends(records[i], records[j])
  {
    if j == |records| - 1 {
      FinalDescends(records, i);
    } else {
      HistoryIsStable(records[..|records| - 1], i, j);
    }
  }

  lemma {:induction false} FinalDescends(records: seq<Message>, i: nat)
    requires Replay(records).Some? && i < |records| && records[i].head.id == records[|records| - 1].head.id
    ensures Descends(records[i], records[|records| - 1])
  {
    LastDescends(records, i);
    LastKept(records);
  }

  lemma {:induction false} LastKept(records: seq<Message>)
    requires records != [] && Replay(records).Some?
    ensures var last := records[|records| - 1]; last.head.id in Replay(records).value && Replay(records).value[last.head.id] == last
  {
  }

  /** Replay's result holds only complete records, filed under their own ids, with lawful fields. */
  predicate WellKept(index: Index) {
    forall id :: id in index ==> index[id].head.id == id && Complete(index[id]) && StatusFields(index[id])
  }

  lemma {:induction false} ReplayWellKept(records: seq<Message>)
    requires Replay(records).Some?
    ensures WellKept(Replay(records).value)
  {
    if records != [] {
      ReplayWellKept(records[..|records| - 1]);
    }
  }
}
