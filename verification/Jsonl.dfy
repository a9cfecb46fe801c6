/**
 JSON-lines journals: records are newline-terminated, a crash may leave a torn
 tail, replay quarantines and truncates that tail, and append refuses to write
 behind an unrepaired one (internal/storage/jsonl.go).
 */
module Jsonl {

  newtype Byte = b: int | 0 <= b < 256
  type Line = seq<Byte>

  const NEWLINE: Byte := 10

  predicate NewlineFree(s: seq<Byte>) {
    NEWLINE !in s
  }

  predicate AllNewlineFree(lines: seq<Line>) {
    forall i :: 0 <= i < |lines| ==> NewlineFree(lines[i])
  }

  /** The bytes that a list of complete records occupies in the file. */
  function Encode(lines: seq<Line>): seq<Byte>
    decreases |lines|
  {
    if lines == [] then [] else Encode(lines[..|lines| - 1]) + (lines[|lines| - 1] + [NEWLINE])
  }

  /** Complete records of a file and the bytes after its last newline. */
  datatype Contents = Contents(lines: seq<Line>, tail: seq<Byte>)

  function Push(c: Contents, b: Byte): Contents {
    if b == NEWLINE then Contents(c.lines + [c.tail], []) else c.(tail := c.tail + [b])
  }

  function Parse(data: seq<Byte>): Contents
    decreases |data|
  {
    if data == [] then Contents([], []) else Push(Parse(data[..|data| - 1]), data[|data| - 1])
  }

  function Lines(data: seq<Byte>): seq<Line> { Parse(data).lines }

  function Tail(data: seq<Byte>): seq<Byte> { Parse(data).tail }

  lemma {:induction false} ParseSnoc(data: seq<Byte>, b: Byte)
    ensures Parse(data + [b]) == Push(Parse(data), b)
  {
    assert (data + [b])[..|data|] == data;
  }

  lemma {:induction false} EncodeSnoc(lines: seq<Line>, line: Line)
    ensures Encode(lines + [line]) == Encode(lines) + (line + [NEWLINE])
  {
    assert (lines + [line])[..|lines|] == lines;
  }

  /** Every file is its complete records followed by its newline-free tail. */
  lemma {:induction false} Reassemble(data: seq<Byte>)
    ensures Encode(Lines(data)) + Tail(data) == data
    ensures NewlineFree(Tail(data)) && AllNewlineFree(Lines(data))
    decreases |data|
  {
    if data != [] {
      var front, b := data[..|data| - 1], data[|data| - 1];
      Reassemble(front);
      EncodeSnoc(Lines(front), Tail(front));
      assert data == front + [b];
    }
  }

  function PushAll(c: Contents, bytes: seq<Byte>): Contents
    decreases |bytes|
  {
    if bytes == [] then c else Push(PushAll(c, bytes[..|bytes| - 1]), bytes[|bytes| - 1])
  }

  lemma {:induction false} ParseConcat(data: seq<Byte>, more: seq<Byte>)
    ensures Parse(data + more) == PushAll(Parse(data), more)
    decreases |more|
  {
    if more == [] {
      assert data + more == data;
    } else {
      ParseConcat(data, more[..|more| - 1]);
      assert (data + more)[..|data + more| - 1] == data + more[..|more| - 1];
    }
  }

  lemma {:induction false} PushNewlineFree(c: Contents, bytes: seq<Byte>)
    requires NewlineFree(bytes)
    ensures PushAll(c, bytes) == Contents(c.lines, c.tail + bytes)
    decreases |bytes|
  {
    if bytes != [] {
      var front, b := bytes[..|bytes| - 1], bytes[|bytes| - 1];
      PushNewlineFree(c, front);
      assert c.tail + bytes == c.tail + front + [b];
    }
  }

  lemma {:induction false} ParseTail(data: seq<Byte>, tail: seq<Byte>)
    requires NewlineFree(tail)
    ensures Parse(data + tail) == Contents(Lines(data), Tail(data) + tail)
  {
    ParseConcat(data, tail);
    PushNewlineFree(Parse(data), tail);
  }

  /** Appending one newline-free record completes the tail with it. */
  lemma {:induction false} ParseLine(data: seq<Byte>, line: Line)
    requires NewlineFree(line)
    ensures Parse(data + (line + [NEWLINE])) == Contents(Lines(data) + [Tail(data) + line], [])
  {
    ParseTail(data, line);
    ParseSnoc(data + line, NEWLINE);
    assert data + (line + [NEWLINE]) == data + line + [NEWLINE];
  }

  lemma {:induction false} RecoverLines(lines: seq<Line>)
    requires AllNewlineFree(lines)
    ensures Parse(Encode(lines)) == Contents(lines, [])
    decreases |lines|
  {
    if lines != [] {
      var front, line := lines[..|lines| - 1], lines[|lines| - 1];
      RecoverLines(front);
      ParseLine(Encode(front), line);
      assert [] + line == line;
      assert lines == front + [line];
    }
  }

  /** The inverse direction: any records and any newline-free tail are recovered exactly. */
  lemma {:induction false} Recover(lines: seq<Line>, tail: seq<Byte>)
    requires AllNewlineFree(lines) && NewlineFree(tail)
    ensures Parse(Encode(lines) + tail) == Contents(lines, tail)
  {
    RecoverLines(lines);
    ParseTail(Encode(lines), tail);
    assert [] + tail == tail;
  }

  /** Reading more bytes never takes back a record. */
  lemma {:induction false} LinesGrow(data: seq<Byte>, k: nat)
    requires k <= |data|
    ensures Lines(data[..k]) <= Lines(data)
    decreases |data|
  {
    if k == |data| {
      assert data[..k] == data;
    } else {
      var front := data[..|data| - 1];
      LinesGrow(front, k);
      assert front[..k] == data[..k];
    }
  }

  /** How many leading lines a (history-dependent) validator lets through. */
  function AcceptedCount(accept: (seq<Line>, Line) -> bool, lines: seq<Line>, from: nat): (n: nat)
    requires from <= |lines|
    ensures from <= n <= |lines|
    ensures n < |lines| ==> !accept(lines[..n], lines[n])
    ensures forall i :: from <= i < n ==> accept(lines[..i], lines[i])
    decreases |lines| - from
  {
    if from == |lines| || !accept(lines[..from], lines[from]) then from
    else AcceptedCount(accept, lines, from + 1)
  }

  predicate AppendAllowed(data: seq<Byte>) {
    data == [] || data[|data| - 1] == NEWLINE
  }

  /** Append is possible exactly when there is no torn tail. */
  lemma AppendAllowedIffNoTail(data: seq<Byte>)
    ensures AppendAllowed(data) <==> Tail(data) == []
  {
    if data != [] {
      ParseSnoc(data[..|data| - 1], data[|data| - 1]);
    }
  }

  lemma {:induction false} AcceptedCountUnique(accept: (seq<Line>, Line) -> bool, lines: seq<Line>, n: nat)
    requires n <= |lines|
    requires forall i :: 0 <= i < n ==> accept(lines[..i], lines[i])
    requires n < |lines| ==> !accept(lines[..n], lines[n])
    ensures AcceptedCount(accept, lines, 0) == n
  {
    var m := AcceptedCount(accept, lines, 0);
  }

  lemma ScanLine(data: seq<Byte>, consumed: seq<Line>, offset: nat, newline: nat)
    requires offset <= newline < |data| && Parse(data[..offset]) == Contents(consumed, [])
    requires NewlineFree(data[offset..newline]) && data[newline] == NEWLINE
    ensures Parse(data[..newline + 1]) == Contents(consumed + [data[offset..newline]], [])
    ensures consumed + [data[offset..newline]] <= Lines(data)
  {
    var line := data[offset..newline];
    ParseLine(data[..offset], line);
    assert data[..newline + 1] == data[..offset] + (line + [NEWLINE]);
    assert [] + line == line;
    LinesGrow(data, newline + 1);
  }

  /** Each line was accepted behind the lines before it. */
  predicate AllAccepted(accept: (seq<Line>, Line) -> bool, consumed: seq<Line>) {
    forall i :: 0 <= i < |consumed| ==> accept(consumed[..i], consumed[i])
  }

  lemma AcceptedOneMore(accept: (seq<Line>, Line) -> bool, consumed: seq<Line>, line: Line)
    requires AllAccepted(accept, consumed) && accept(consumed, line)
    ensures AllAccepted(accept, consumed + [line])
  {
    var all := consumed + [line];
    forall i | 0 <= i < |all|
      ensures accept(all[..i], all[i])
    {
      assert all[..i] == consumed[..i];
      assert consumed[..|consumed|] == consumed;
    }
  }

  lemma RejectedAt(data: seq<Byte>, accept: (seq<Line>, Line) -> bool, consumed: seq<Line>, line: Line)
    requires consumed + [line] <= Lines(data) && !accept(consumed, line)
    requires AllAccepted(accept, consumed)
    ensures consumed == Lines(data)[..AcceptedCount(accept, Lines(data), 0)]
    ensures |consumed| < |Lines(data)|
  {
    var lines, n := Lines(data), |consumed|;
    assert lines[n] == line && lines[..n] == consumed;
    forall i | 0 <= i < n
      ensures accept(lines[..i], lines[i])
    {
      assert lines[..i] == consumed[..i];
    }
    AcceptedCountUnique(accept, lines, n);
  }

  lemma {:induction false} ScanEnd(data: seq<Byte>, consumed: seq<Line>, offset: nat)
    requires offset <= |data| && Parse(data[..offset]) == Contents(consumed, [])
    requires NewlineFree(data[offset..])
    ensures Parse(data) == Contents(consumed, data[offset..])
    ensures data[..offset] == Encode(consumed)
  {
    Reassemble(data[..offset]);
    ParseTail(data[..offset], data[offset..]);
    assert data == data[..offset] + data[offset..];
    assert [] + data[offset..] == data[offset..];
  }

  datatype ReplayError = Clean | RejectedLine(lineNumber: nat, offset: nat) | IncompleteTail | QuarantineFailed | TruncateFailed

  datatype ReplayResult = ReplayResult(recordCount: nat, lastValidOffset: nat, incompleteTail: bool, repaired: bool)

  method NextNewline(data: seq<Byte>, offset: nat) returns (newline: nat)
    requires offset <= |data|
    ensures offset <= newline <= |data|
    ensures NewlineFree(data[offset..newline])
    ensures newline < |data| ==> data[newline] == NEWLINE
  {
    newline := offset;
    while newline < |data| && data[newline] != NEWLINE
      invariant offset <= newline <= |data|
      invariant NewlineFree(data[offset..newline])
    {
      newline := newline + 1;
    }
  }

  /**
   The scan loop of ReplayJSONL: walk the bytes by offset, hand each complete line to the
   validator, and stop at the first refusal or at the end of the complete lines.
   */
  method Scan(data: seq<Byte>, accept: (seq<Line>, Line) -> bool)
    returns (consumed: seq<Line>, offset: nat, rejected: bool)
    ensures offset <= |data| && data[..offset] == Encode(consumed)
    ensures consumed == Lines(data)[..AcceptedCount(accept, Lines(data), 0)]
    ensures rejected <==> |consumed| < |Lines(data)|
    ensures !rejected ==> data[offset..] == Tail(data)
  {
    consumed, offset, rejected := [], 0, false;
    while offset < |data|
      invariant 0 <= offset <= |data|
      invariant Parse(data[..offset]) == Contents(consumed, [])
      invariant AllAccepted(accept, consumed)
      decreases |data| - offset
    {
      var newline := NextNewline(data, offset);
      if newline == |data| {
        assert data[offset..newline] == data[offset..];
        break;
      }
      var line := data[offset..newline];
      ScanLine(data, consumed, offset, newline);
      if !accept(consumed, line) {
        RejectedAt(data, accept, consumed, line);
        Reassemble(data[..offset]);
        assert Encode(consumed) + [] == Encode(consumed);
        rejected := true;
        return;
      }
      AcceptedOneMore(accept, consumed, line);
      consumed := consumed + [line];
      offset := newline + 1;
    }
    ScanEnd(data, consumed, offset);
    AcceptedCountUnique(accept, consumed, |consumed|);
  }

  /** One journal file and the quarantine files written beside it. */
  class JournalFile {
    var data: seq<Byte>
    var quarantined: seq<seq<Byte>>

    constructor (contents: seq<Byte>)
      ensures data == contents && quarantined == []
    {
      data := contents;
      quarantined := [];
    }

    /** ReplayJSONL: scan, then quarantine and truncate a torn tail when asked to repair. */
    method Replay(repair: bool, accept: (seq<Line>, Line) -> bool, quarantineOk: bool, truncateOk: bool)
      returns (consumed: seq<Line>, result: ReplayResult, error: ReplayError)
      modifies this
      ensures consumed == Lines(old(data))[..AcceptedCount(accept, Lines(old(data)), 0)]
      ensures result.recordCount == |consumed| && result.lastValidOffset == |Encode(consumed)|
      ensures error.RejectedLine? <==> |consumed| < |Lines(old(data))|
      ensures error.RejectedLine? ==> error == RejectedLine(|consumed| + 1, result.lastValidOffset)
      ensures result.incompleteTail == (!error.RejectedLine? && Tail(old(data)) != [])
      ensures error.IncompleteTail? <==> result.incompleteTail && !repair
      ensures result.repaired == (result.incompleteTail && repair && quarantineOk && truncateOk)
      ensures error.Clean? <==> !error.RejectedLine? && (result.incompleteTail ==> result.repaired)
      ensures data == if result.repaired then Encode(consumed) else old(data)
      ensures quarantined == old(quarantined) + if result.incompleteTail && repair && quarantineOk then [Tail(old(data))] else []
    {
      var offset, rejected;
      consumed, offset, rejected := Scan(data, accept);
      if rejected {
        return consumed, ReplayResult(|consumed|, offset, false, false), RejectedLine(|consumed| + 1, offset);
      }
      result := ReplayResult(|consumed|, offset, offset < |data|, false);
      if !result.incompleteTail {
        return consumed, result, Clean;
      }
      if !repair {
        return consumed, result, IncompleteTail;
      }
      if !quarantineOk {
        return consumed, result, QuarantineFailed;
      }
      quarantined := quarantined + [data[offset..]];
      if !truncateOk {
        return consumed, result, TruncateFailed;
      }
      data := data[..offset];
      result := result.(repaired := true);
      error := Clean;
    }

    /**
     AppendJSONL: refuse an empty record, a trailing newline, or an unrepaired torn tail. Otherwise
     record and newline are written as far as the disk lets them, and success means all of them,
     synced.
     */
    method Append(record: Line, fate: Fate) returns (ok: bool)
      modifies this`data
      ensures ok <==> Appendable(old(data), record) && fate == Synced
      ensures data == if Appendable(old(data), record) then old(data) + Reached(record, fate) else old(data)
    {
      AppendAllowedIffNoTail(data);
      if record == [] || record[|record| - 1] == NEWLINE || !AppendAllowed(data) {
        return false;
      }
      data := data + Reached(record, fate);
      ok := fate == Synced;
    }
  }

  /** What becomes of a write: cut off after some bytes, complete but not synced, or both. */
  datatype Fate = CutOff(bytes: nat) | Unsynced | Synced

  predicate Appendable(data: seq<Byte>, record: Line) {
    record != [] && record[|record| - 1] != NEWLINE && Tail(data) == []
  }

  /** The bytes that reach the file. */
  function Reached(record: Line, fate: Fate): seq<Byte> {
    var all := record + [NEWLINE];
    if fate.CutOff? && fate.bytes <= |record| then all[..fate.bytes] else all
  }

  /** Replay with repair and no further validation. */
  method Load(file: JournalFile) returns (consumed: seq<Line>, hadTail: bool)
    modifies file
    ensures consumed == Lines(old(file.data)) && file.data == Encode(consumed)
    ensures hadTail <==> Tail(old(file.data)) != []
    ensures file.quarantined == old(file.quarantined) + if hadTail then [Tail(old(file.data))] else []
  {
    var everything := (history: seq<Line>, line: Line) => true;
    AcceptedCountUnique(everything, Lines(file.data), |Lines(file.data)|);
    Reassemble(file.data);
    var result, error;
    consumed, result, error := file.Replay(true, everything, true, true);
    hadTail := result.incompleteTail;
  }

  /**
   A torn append end to end: records, then any proper prefix of one more append.
   Append is refused exactly while a tail is torn, replay hands over exactly the complete
   records, nothing is lost between file and quarantine, a second replay finds no
   tail, and append works again.
   */
  method RecoverTornAppend(records: seq<Line>, torn: Line, cut: nat, next: Line)
    returns (early: bool, consumed: seq<Line>, kept: seq<Byte>, quarantine: seq<Byte>,
             secondTail: bool, again: seq<Line>, late: bool, resumed: seq<Line>)
    requires AllNewlineFree(records) && NewlineFree(torn) && cut <= |torn|
    requires next != [] && NewlineFree(next)
    ensures early <==> cut == 0
    ensures consumed == records
    ensures kept == Encode(records) && kept + quarantine == Encode(records) + torn[..cut]
    ensures !secondTail && again == records
    ensures late && resumed == records + [next]
  {
    var original := Encode(records) + torn[..cut];
    Recover(records, torn[..cut]);
    RecoverLines(records);
    var probe := new JournalFile(original);
    early := probe.Append(next, Synced);

    var file := new JournalFile(original);
    var firstTail;
    consumed, firstTail := Load(file);
    kept := file.data;
    quarantine := if firstTail then file.quarantined[0] else [];
    assert quarantine == torn[..cut];
    again, secondTail := Load(file);
    late, resumed := AppendThenLoad(file, next);
  }

  method AppendThenLoad(file: JournalFile, next: Line) returns (ok: bool, lines: seq<Line>)
    requires next != [] && NewlineFree(next)
    modifies file
    ensures ok <==> Tail(old(file.data)) == []
    ensures lines == Lines(old(file.data)) + if ok then [next] else []
  {
    ParseLine(file.data, next);
    assert [] + next == next;
    ok := file.Append(next, Synced);
    var tail;
    lines, tail := Load(file);
  }

  /** What can happen to a journal file over its life. */
  datatype Op = Write(record: Line) | Crash(record: Line, cut: nat) | Repair

  /** File contents together with the records whose append completed. */
  datatype Disk = Disk(data: seq<Byte>, committed: seq<Line>)

  predicate ValidOp(op: Op) {
    match op
    case Write(r) => r != [] && NewlineFree(r)
    case Crash(r, cut) => r != [] && NewlineFree(r) && cut <= |r|
    case Repair => true
  }

  function ApplyData(data: seq<Byte>, op: Op): seq<Byte> {
    match op
    case Write(r) => if AppendAllowed(data) then data + (r + [NEWLINE]) else data
    case Crash(r, cut) => if AppendAllowed(data) && cut <= |r| then data + r[..cut] else data
    case Repair => Encode(Lines(data))
  }

  function Apply(disk: Disk, op: Op): Disk {
    Disk(ApplyData(disk.data, op),
         if op.Write? && AppendAllowed(disk.data) then disk.committed + [op.record] else disk.committed)
  }

  /** The file's own methods do to its bytes what the operation says. */
  method Perform(file: JournalFile, op: Op) returns (ok: bool)
    requires ValidOp(op)
    modifies file
    ensures file.data == ApplyData(old(file.data), op)
    ensures op.Write? ==> (ok <==> AppendAllowed(old(file.data)))
  {
    AppendAllowedIffNoTail(file.data);
    match op {
      case Write(r) => ok := file.Append(r, Synced);
      case Crash(r, cut) =>
        assert (r + [NEWLINE])[..cut] == r[..cut];
        ok := file.Append(r, CutOff(cut));
      case Repair =>
        var lines;
        lines, ok := Load(file);
    }
  }

  function Run(disk: Disk, ops: seq<Op>): Disk
    decreases |ops|
  {
    if ops == [] then disk else Run(Apply(disk, ops[0]), ops[1..])
  }

  predicate Consistent(disk: Disk) {
    Lines(disk.data) == disk.committed
  }

  lemma WriteKeepsLines(data: seq<Byte>, op: Op)
    requires ValidOp(op) && AppendAllowed(data) && !op.Repair?
    ensures Lines(ApplyData(data, op)) == Lines(data) + if op.Write? then [op.record] else []
  {
    AppendAllowedIffNoTail(data);
    match op
    case Write(r) =>
      ParseLine(data, r);
      assert [] + r == r;
    case Crash(r, cut) =>
      ParseTail(data, r[..cut]);
      assert Lines(data) + [] == Lines(data);
  }

  lemma RepairKeepsLines(data: seq<Byte>)
    ensures Lines(ApplyData(data, Repair)) == Lines(data)
  {
    Reassemble(data);
    RecoverLines(Lines(data));
  }

  lemma ApplyKeepsConsistent(disk: Disk, op: Op)
    requires Consistent(disk) && ValidOp(op)
    ensures Consistent(Apply(disk, op))
    ensures disk.committed <= Apply(disk, op).committed
  {
    if op.Repair? {
      RepairKeepsLines(disk.data);
    } else if AppendAllowed(disk.data) {
      WriteKeepsLines(disk.data, op);
      assert disk.committed + [] == disk.committed;
    }
  }

  /**
   Over any sequence of appends, torn writes and repairs the complete records on disk
   are exactly the appends that completed, and none is ever lost.
   */
  lemma {:induction false} RunKeepsCommitted(disk: Disk, ops: seq<Op>)
    requires Consistent(disk)
    requires forall i :: 0 <= i < |ops| ==> ValidOp(ops[i])
    ensures Consistent(Run(disk, ops))
    ensures disk.committed <= Run(disk, ops).committed
    decreases |ops|
  {
    if ops != [] {
      ApplyKeepsConsistent(disk, ops[0]);
      RunKeepsCommitted(Apply(disk, ops[0]), ops[1..]);
    }
  }
}
