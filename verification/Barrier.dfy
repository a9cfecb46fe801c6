/** The verdict on a finished wave (internal/wave/evaluator.go:65-212). */
module Barrier {
  import opened Text
  import opened Attempts

  /** NoEnvelope also stands for a status no rule mentions. */
  datatype Envelope = NoEnvelope | Succeeded | FailedEnvelope | CancelledEnvelope | BlockedEnvelope | PartialEnvelope

  datatype Report = Report(taskId: string, runtime: TaskStatus, envelope: Envelope, present: bool, metaValid: bool,
                           markdownValid: bool, identityValid: bool, error: string)

  datatype Pending = Pending(messageId: string, taskId: string, kind: string)

  datatype HighRisk = HighRisk(path: string, isError: bool, reason: string)

  datatype Check = Check(command: string, passed: bool)

  datatype Audit = Audit(unauthorized: seq<string>, ownerUncertain: seq<string>, ephemeral: seq<string>)

  datatype Inputs = Inputs(cancelled: bool, reports: seq<Report>, pending: seq<Pending>, audit: Audit, highRisk: seq<HighRisk>,
                           checks: seq<Check>, existingWarnings: seq<string>, existingErrors: seq<string>)

  datatype Result = Passed | PassedWithWarnings | Blocked | Failed | Cancelled

  datatype Verification = Verification(result: Result, errors: seq<string>, warnings: seq<string>, pending: seq<string>)

  /** What is worth a line in the verdict. */
  datatype Note =
    | MissingReport(task: string) | BadMeta(task: string) | BadMarkdown(task: string) | BadIdentity(task: string)
    | TaskIs(task: string, status: TaskStatus) | EnvelopeIs(task: string, envelope: Envelope)
    | PendingFor(pending: Pending) | UnauthorizedFile(path: string) | UncertainFile(path: string) | EphemeralSeen(count: nat)
    | RiskyChange(path: string, reason: string) | FailedCheck(command: string)

  /** How a note is worded; no wording is empty. */
  type Wording = n: (Note -> string) | forall x :: n(x) != [] witness (_ => "-")

  // ----- what each input contributes -----

  function When(b: bool, line: string): seq<string> {
    if b then [line] else []
  }

  function FormErrors(w: Wording, r: Report): seq<string> {
    When(!r.present, w(MissingReport(r.taskId)))
    + When(r.present && !r.metaValid, w(BadMeta(r.taskId)))
    + When(r.present && !r.markdownValid, w(BadMarkdown(r.taskId)))
    + When(r.present && !r.identityValid, w(BadIdentity(r.taskId)))
  }

  function StatusErrors(w: Wording, r: Report, cancelled: bool): seq<string> {
    When(r.runtime == TaskFailed || r.runtime == TaskVerificationFailed || (r.runtime == TaskCancelled && !cancelled),
         w(TaskIs(r.taskId, r.runtime)))
    + When(r.envelope == FailedEnvelope || r.envelope == CancelledEnvelope, w(EnvelopeIs(r.taskId, r.envelope)))
  }

  function ReportErrors(w: Wording, r: Report, cancelled: bool): seq<string> {
    When(r.error != [], r.error) + FormErrors(w, r) + StatusErrors(w, r, cancelled)
  }

  function ReportWarnings(w: Wording, r: Report): seq<string> {
    When(r.runtime == TaskBlocked || r.runtime == TaskVerifiedPartial, w(TaskIs(r.taskId, r.runtime)))
    + When(r.envelope == BlockedEnvelope || r.envelope == PartialEnvelope, w(EnvelopeIs(r.taskId, r.envelope)))
  }

  predicate ReportBlocks(r: Report) {
    r.runtime == TaskBlocked || r.envelope == BlockedEnvelope
  }

  /** The lines of a list of inputs, one after the other. */
  function Collect<T>(xs: seq<T>, lines: T -> seq<string>): seq<string> {
    if xs == [] then [] else Collect(xs[..|xs| - 1], lines) + lines(xs[|xs| - 1])
  }

  lemma {:induction false} CollectMember<T>(xs: seq<T>, lines: T -> seq<string>, e: string)
    ensures e in Collect(xs, lines) <==> exists x :: x in xs && e in lines(x)
  {
    if xs != [] {
      var n := |xs| - 1;
      CollectMember(xs[..n], lines, e);
      assert xs == xs[..n] + [xs[n]];
    }
  }

  function CheckLines(w: Wording, c: Check): seq<string> {
    When(!c.passed, w(FailedCheck(c.command)))
  }

  function RiskLines(w: Wording, h: HighRisk, wantError: bool): seq<string> {
    When(h.isError == wantError, w(RiskyChange(h.path, h.reason)))
  }

  function EphemeralLines(w: Wording, audit: Audit): seq<string> {
    When(audit.ephemeral != [], w(EphemeralSeen(|audit.ephemeral|)))
  }

  function ErrorLines(w: Wording, i: Inputs): seq<string> {
    i.existingErrors
    + Collect(i.reports, (r: Report) => ReportErrors(w, r, i.cancelled))
    + Collect(i.audit.unauthorized, (p: string) => [w(UnauthorizedFile(p))])
    + Collect(i.highRisk, (h: HighRisk) => RiskLines(w, h, true))
    + Collect(i.checks, (c: Check) => CheckLines(w, c))
  }

  function WarningLines(w: Wording, i: Inputs): seq<string> {
    i.existingWarnings
    + Collect(i.reports, (r: Report) => ReportWarnings(w, r))
    + Collect(i.pending, (p: Pending) => [w(PendingFor(p))])
    + Collect(i.audit.ownerUncertain, (p: string) => [w(UncertainFile(p))])
    + EphemeralLines(w, i.audit)
    + Collect(i.highRisk, (h: HighRisk) => RiskLines(w, h, false))
  }

  function PendingLines(i: Inputs): seq<string> {
    Collect(i.pending, (p: Pending) => [p.messageId])
  }

  predicate Blocks(i: Inputs) {
    i.pending != [] || exists r :: r in i.reports && ReportBlocks(r)
  }

  /** The priority of the verdicts, from the sets of lines. */
  function Decide(cancelled: bool, errors: bool, blocked: bool, warnings: bool): Result {
    if cancelled then Cancelled
    else if errors then Failed
    else if blocked then Blocked
    else if warnings then PassedWithWarnings
    else Passed
  }

  // ----- the evaluator -----

  method Gather<T>(xs: seq<T>, lines: T -> seq<string>) returns (out: seq<string>)
    ensures out == Collect(xs, lines)
  {
    out := [];
    for i := 0 to |xs|
      invariant out == Collect(xs[..i], lines)
    {
      assert xs[..i + 1][..i] == xs[..i];
      out := out + lines(xs[i]);
    }
    assert xs[..|xs|] == xs;
  }

  /** The loop over the reports, whatever lines a report is worth. */
  method AssessReports(reports: seq<Report>, errorLines: Report -> seq<string>, warningLines: Report -> seq<string>)
    returns (errors: seq<string>, warnings: seq<string>, blocked: bool)
    ensures errors == Collect(reports, errorLines) && warnings == Collect(reports, warningLines)
    ensures blocked <==> exists r :: r in reports && ReportBlocks(r)
  {
    errors, warnings, blocked := [], [], false;
    for i := 0 to |reports|
      invariant errors == Collect(reports[..i], errorLines) && warnings == Collect(reports[..i], warningLines)
      invariant blocked <==> exists k :: 0 <= k < i && ReportBlocks(reports[k])
    {
      assert reports[..i + 1][..i] == reports[..i];
      errors := errors + errorLines(reports[i]);
      warnings := warnings + warningLines(reports[i]);
      if ReportBlocks(reports[i]) {
        blocked := true;
      }
    }
    assert reports[..|reports|] == reports;
    assert blocked ==> exists r :: r in reports && ReportBlocks(r);
  }

  predicate Listed(out: seq<string>, lines: seq<string>) {
    StrictlySorted(out) && Elements(out) == Elements(lines) - {[]}
  }

  /** The lists are the sorted, distinct, non-empty lines; the verdict is the highest that applies. */
  method EvaluateBarrier(w: Wording, input: Inputs) returns (v: Verification)
    ensures Listed(v.errors, ErrorLines(w, input)) && Listed(v.warnings, WarningLines(w, input))
    ensures Listed(v.pending, PendingLines(input))
    ensures v.result == Decide(input.cancelled, v.errors != [], Blocks(input), v.warnings != [])
  {
    var reportErrors, reportWarnings, blocked := 
      AssessReports(input.reports, (r: Report) => ReportErrors(w, r, input.cancelled), (r: Report) => ReportWarnings(w, r));
    var pendingWarnings := Gather(input.pending, (p: Pending) => [w(PendingFor(p))]);
    var pendingIds := Gather(input.pending, (p: Pending) => [p.messageId]);
    var unauthorized := Gather(input.audit.unauthorized, (p: string) => [w(UnauthorizedFile(p))]);
    var uncertain := Gather(input.audit.ownerUncertain, (p: string) => [w(UncertainFile(p))]);
    var risky := Gather(input.highRisk, (h: HighRisk) => RiskLines(w, h, true));
    var watched := Gather(input.highRisk, (h: HighRisk) => RiskLines(w, h, false));
    var failed := Gather(input.checks, (c: Check) => CheckLines(w, c));
    var errors := UniqueSorted(input.existingErrors + reportErrors + unauthorized + risky + failed);
    var warnings := UniqueSorted(
      input.existingWarnings + reportWarnings + pendingWarnings + uncertain + EphemeralLines(w, input.audit) + watched);
    var pending := UniqueSorted(pendingIds);
    var result := Decide(input.cancelled, errors != [], blocked || input.pending != [], warnings != []);
    v := Verification(result, errors, warnings, pending);
  }

  /** Any verification of the inputs is this one. */
  predicate Evaluates(w: Wording, input: Inputs, v: Verification) {
    && Listed(v.errors, ErrorLines(w, input)) && Listed(v.warnings, WarningLines(w, input))
    && Listed(v.pending, PendingLines(input))
    && v.result == Decide(input.cancelled, v.errors != [], Blocks(input), v.warnings != [])
  }

  // ----- monotone -----

  function Rank(r: Result): nat {
    match r
    case Passed => 0
    case PassedWithWarnings => 1
    case Blocked => 2
    case Failed => 3
    case Cancelled => 4
  }

  predicate Within<T(==)>(xs: seq<T>, ys: seq<T>) {
    forall x :: x in xs ==> x in ys
  }

  /** Everything the first inputs hold, the second hold too, in any order. */
  predicate Grows(a: Inputs, b: Inputs) {
    && a.cancelled == b.cancelled
    && Within(a.reports, b.reports) && Within(a.pending, b.pending) && Within(a.highRisk, b.highRisk) && Within(a.checks, b.checks)
    && Within(a.audit.unauthorized, b.audit.unauthorized) && Within(a.audit.ownerUncertain, b.audit.ownerUncertain)
    && Within(a.audit.ephemeral, b.audit.ephemeral)
    && Within(a.existingWarnings, b.existingWarnings) && Within(a.existingErrors, b.existingErrors)
  }

  lemma {:induction false} CollectGrows<T>(xs: seq<T>, ys: seq<T>, lines: T -> seq<string>)
    requires Within(xs, ys)
    ensures Within(Collect(xs, lines), Collect(ys, lines))
  {
    forall e | e in Collect(xs, lines)
      ensures e in Collect(ys, lines)
    {
      CollectMember(xs, lines, e);
      CollectMember(ys, lines, e);
    }
  }

  lemma ErrorsGrow(w: Wording, a: Inputs, b: Inputs)
    requires Grows(a, b)
    ensures Within(ErrorLines(w, a), ErrorLines(w, b))
  {
    CollectGrows(a.reports, b.reports, (r: Report) => ReportErrors(w, r, a.cancelled));
    CollectGrows(a.audit.unauthorized, b.audit.unauthorized, (p: string) => [w(UnauthorizedFile(p))]);
    CollectGrows(a.highRisk, b.highRisk, (h: HighRisk) => RiskLines(w, h, true));
    CollectGrows(a.checks, b.checks, (c: Check) => CheckLines(w, c));
  }

  /** Warnings other than the count of ephemeral files. */
  function FixedWarnings(w: Wording, i: Inputs): seq<string> {
    i.existingWarnings
    + Collect(i.reports, (r: Report) => ReportWarnings(w, r))
    + Collect(i.pending, (p: Pending) => [w(PendingFor(p))])
    + Collect(i.audit.ownerUncertain, (p: string) => [w(UncertainFile(p))])
    + Collect(i.highRisk, (h: HighRisk) => RiskLines(w, h, false))
  }

  lemma WarningsSplit(w: Wording, i: Inputs, e: string)
    ensures e in WarningLines(w, i) <==> e in FixedWarnings(w, i) || e in EphemeralLines(w, i.audit)
  {
  }

  lemma WarningsGrow(w: Wording, a: Inputs, b: Inputs)
    requires Grows(a, b)
    ensures Within(FixedWarnings(w, a), FixedWarnings(w, b))
  {
    CollectGrows(a.reports, b.reports, (r: Report) => ReportWarnings(w, r));
    CollectGrows(a.pending, b.pending, (p: Pending) => [w(PendingFor(p))]);
    CollectGrows(a.audit.ownerUncertain, b.audit.ownerUncertain, (p: string) => [w(UncertainFile(p))]);
    CollectGrows(a.highRisk, b.highRisk, (h: HighRisk) => RiskLines(w, h, false));
  }

  lemma ListedSome(out: seq<string>, lines: seq<string>)
    requires Listed(out, lines)
    ensures out != [] <==> exists e :: e in lines && e != []
  {
    if out != [] {
      assert out[0] in Elements(out);
    }
    if e :| e in lines && e != [] {
      assert e in Elements(out);
    }
  }

  lemma ErrorsStay(w: Wording, a: Inputs, b: Inputs, va: Verification, vb: Verification)
    requires Grows(a, b) && Evaluates(w, a, va) && Evaluates(w, b, vb)
    ensures va.errors != [] ==> vb.errors != []
  {
    ListedSome(va.errors, ErrorLines(w, a));
    ListedSome(vb.errors, ErrorLines(w, b));
    ErrorsGrow(w, a, b);
  }

  lemma WarningsStay(w: Wording, a: Inputs, b: Inputs, va: Verification, vb: Verification)
    requires Grows(a, b) && Evaluates(w, a, va) && Evaluates(w, b, vb)
    ensures va.warnings != [] ==> vb.warnings != []
  {
    ListedSome(va.warnings, WarningLines(w, a));
    ListedSome(vb.warnings, WarningLines(w, b));
    if va.warnings != [] {
      var e :| e in WarningLines(w, a) && e != [];
      WarningsSplit(w, a, e);
      WarningsGrow(w, a, b);
      if e in FixedWarnings(w, a) {
        WarningsSplit(w, b, e);
      } else {
        assert a.audit.ephemeral[0] in b.audit.ephemeral;
        var line := w(EphemeralSeen(|b.audit.ephemeral|));
        assert line in EphemeralLines(w, b.audit);
        WarningsSplit(w, b, line);
      }
    }
  }

  /** Adding anything to the inputs never moves the verdict down. */
  lemma BarrierIsMonotone(w: Wording, a: Inputs, b: Inputs, va: Verification, vb: Verification)
    requires Grows(a, b) && Evaluates(w, a, va) && Evaluates(w, b, vb)
    ensures Rank(va.result) <= Rank(vb.result)
  {
    ErrorsStay(w, a, b, va, vb);
    WarningsStay(w, a, b, va, vb);
    if a.pending != [] {
      assert a.pending[0] in b.pending;
    }
    assert Blocks(a) ==> Blocks(b);
  }

  // ----- order does not matter -----

  lemma SameLines(x: seq<string>, y: seq<string>, out: seq<string>, other: seq<string>)
    requires Within(x, y) && Within(y, x) && Listed(out, x) && Listed(other, y)
    ensures out == other
  {
    assert Elements(x) == Elements(y);
    SortedUnique(out, other);
  }

  lemma SameWarnings(w: Wording, a: Inputs, b: Inputs)
    requires Grows(a, b) && Grows(b, a) && |a.audit.ephemeral| == |b.audit.ephemeral|
    ensures Within(WarningLines(w, a), WarningLines(w, b))
  {
    WarningsGrow(w, a, b);
    forall e | e in WarningLines(w, a)
      ensures e in WarningLines(w, b)
    {
      WarningsSplit(w, a, e);
      WarningsSplit(w, b, e);
    }
  }

  lemma SamePending(a: Inputs, b: Inputs)
    requires Within(a.pending, b.pending)
    ensures Within(PendingLines(a), PendingLines(b))
  {
    CollectGrows(a.pending, b.pending, (p: Pending) => [p.messageId]);
  }

  /** The same inputs in any order give the same verdict and the same three lists. */
  lemma OrderDoesNotMatter(w: Wording, a: Inputs, b: Inputs, va: Verification, vb: Verification)
    requires Grows(a, b) && Grows(b, a) && |a.audit.ephemeral| == |b.audit.ephemeral|
    requires Evaluates(w, a, va) && Evaluates(w, b, vb)
    ensures va == vb
  {
    ErrorsGrow(w, a, b);
    ErrorsGrow(w, b, a);
    SameLines(ErrorLines(w, a), ErrorLines(w, b), va.errors, vb.errors);
    SameWarnings(w, a, b);
    SameWarnings(w, b, a);
    SameLines(WarningLines(w, a), WarningLines(w, b), va.warnings, vb.warnings);
    SamePending(a, b);
    SamePending(b, a);
    SameLines(PendingLines(a), PendingLines(b), va.pending, vb.pending);
    assert Rank(va.result) == Rank(vb.result) by {
      BarrierIsMonotone(w, a, b, va, vb);
      BarrierIsMonotone(w, b, a, vb, va);
    }
  }

  // ----- what passing means -----

  /** A report that is there, valid, of the right worker, and of a task that ended well. */
  predicate GoodReport(r: Report) {
    && r.present && r.metaValid && r.markdownValid && r.identityValid && r.error == []
    && r.runtime != TaskFailed && r.runtime != TaskVerificationFailed && r.runtime != TaskCancelled
    && r.runtime != TaskBlocked && r.runtime != TaskVerifiedPartial
    && (r.envelope == Succeeded || r.envelope == NoEnvelope)
  }

  predicate Spotless(i: Inputs) {
    && !i.cancelled && (forall r :: r in i.reports ==> GoodReport(r)) && (forall c :: c in i.checks ==> c.passed)
    && i.pending == [] && i.highRisk == []
    && i.audit.unauthorized == [] && i.audit.ownerUncertain == [] && i.audit.ephemeral == []
    && (forall e :: e in i.existingErrors ==> e == []) && (forall e :: e in i.existingWarnings ==> e == [])
  }

  lemma GoodReportLines(w: Wording, r: Report)
    ensures GoodReport(r) <==> ReportErrors(w, r, false) == [] && ReportWarnings(w, r) == []
    ensures forall e :: e in ReportErrors(w, r, false) || e in ReportWarnings(w, r) ==> e != []
    ensures ReportBlocks(r) ==> ReportWarnings(w, r) != []
  {
    ReportLinesNotEmpty(w, r);
  }

  lemma ReportLinesNotEmpty(w: Wording, r: Report)
    ensures forall e :: e in ReportErrors(w, r, false) ==> e != []
    ensures forall e :: e in ReportWarnings(w, r) ==> e != []
  {
  }

  lemma {:induction false} CollectNone<T>(xs: seq<T>, lines: T -> seq<string>)
    requires forall x :: x in xs ==> lines(x) == []
    ensures Collect(xs, lines) == []
  {
    if xs != [] {
      CollectNone(xs[..|xs| - 1], lines);
    }
  }

  /** A line of one input is a line of all. */
  lemma {:induction false} CollectSome<T>(xs: seq<T>, lines: T -> seq<string>, x: T)
    requires x in xs && lines(x) != []
    ensures lines(x)[0] in Collect(xs, lines)
  {
    CollectMember(xs, lines, lines(x)[0]);
  }

  lemma SpotlessPasses(w: Wording, i: Inputs, v: Verification)
    requires Evaluates(w, i, v) && Spotless(i)
    ensures v.result == Passed
  {
    forall r | r in i.reports
      ensures ReportErrors(w, r, false) == [] && ReportWarnings(w, r) == [] && !ReportBlocks(r)
    {
      GoodReportLines(w, r);
    }
    CollectNone(i.reports, (r: Report) => ReportErrors(w, r, i.cancelled));
    CollectNone(i.reports, (r: Report) => ReportWarnings(w, r));
    CollectNone(i.checks, (c: Check) => CheckLines(w, c));
    assert ErrorLines(w, i) == i.existingErrors && WarningLines(w, i) == i.existingWarnings;
    ListedSome(v.errors, i.existingErrors);
    ListedSome(v.warnings, i.existingWarnings);
  }

  lemma PassedHasNoLines(w: Wording, i: Inputs, v: Verification, e: string)
    requires Evaluates(w, i, v) && v.result == Passed
    ensures e in ErrorLines(w, i) || e in WarningLines(w, i) ==> e == []
  {
    ListedSome(v.errors, ErrorLines(w, i));
    ListedSome(v.warnings, WarningLines(w, i));
  }

  /** When the verdict is "passed", any input's lines that are among the lines of the verdict are none. */
  lemma {:induction false} PassedNone<T>(w: Wording, i: Inputs, v: Verification, xs: seq<T>, lines: T -> seq<string>, x: T)
    requires Evaluates(w, i, v) && v.result == Passed && x in xs
    requires (forall e :: e in Collect(xs, lines) ==> e in ErrorLines(w, i)) || (forall e :: e in Collect(xs, lines) ==> e in WarningLines(w, i))
    requires forall e :: e in lines(x) ==> e != []
    ensures lines(x) == []
  {
    if lines(x) != [] {
      var e := lines(x)[0];
      assert e in lines(x);
      CollectSome(xs, lines, x);
      PassedHasNoLines(w, i, v, e);
    }
  }

  lemma PassedReports(w: Wording, i: Inputs, v: Verification, r: Report)
    requires Evaluates(w, i, v) && v.result == Passed && r in i.reports
    ensures GoodReport(r)
  {
    GoodReportLines(w, r);
    PassedNone(w, i, v, i.reports, (x: Report) => ReportErrors(w, x, i.cancelled), r);
    PassedNone(w, i, v, i.reports, (x: Report) => ReportWarnings(w, x), r);
  }

  lemma PassedChecks(w: Wording, i: Inputs, v: Verification, c: Check)
    requires Evaluates(w, i, v) && v.result == Passed && c in i.checks
    ensures c.passed
  {
    if !c.passed {
      CollectSome(i.checks, (x: Check) => CheckLines(w, x), c);
      PassedHasNoLines(w, i, v, w(FailedCheck(c.command)));
    }
  }

  lemma PassedRisks(w: Wording, i: Inputs, v: Verification)
    requires Evaluates(w, i, v) && v.result == Passed
    ensures i.highRisk == []
  {
    if i.highRisk != [] {
      var h := i.highRisk[0];
      CollectSome(i.highRisk, (x: HighRisk) => RiskLines(w, x, h.isError), h);
      PassedHasNoLines(w, i, v, w(RiskyChange(h.path, h.reason)));
    }
  }

  lemma PassedAudit(w: Wording, i: Inputs, v: Verification)
    requires Evaluates(w, i, v) && v.result == Passed
    ensures i.audit == Audit([], [], [])
  {
    if i.audit.unauthorized != [] {
      CollectSome(i.audit.unauthorized, (p: string) => [w(UnauthorizedFile(p))], i.audit.unauthorized[0]);
      PassedHasNoLines(w, i, v, w(UnauthorizedFile(i.audit.unauthorized[0])));
    }
    if i.audit.ownerUncertain != [] {
      CollectSome(i.audit.ownerUncertain, (p: string) => [w(UncertainFile(p))], i.audit.ownerUncertain[0]);
      PassedHasNoLines(w, i, v, w(UncertainFile(i.audit.ownerUncertain[0])));
    }
    if i.audit.ephemeral != [] {
      WarningsSplit(w, i, w(EphemeralSeen(|i.audit.ephemeral|)));
      PassedHasNoLines(w, i, v, w(EphemeralSeen(|i.audit.ephemeral|)));
    }
  }

  /**
   A wave passes exactly when nothing at all speaks against it; in particular every report is there,
   valid and identified, and every check passed.
   */
  lemma PassedIffSpotless(w: Wording, i: Inputs, v: Verification)
    requires Evaluates(w, i, v)
    ensures v.result == Passed <==> Spotless(i)
  {
    if Spotless(i) {
      SpotlessPasses(w, i, v);
    }
    if v.result == Passed {
      PassedRisks(w, i, v);
      PassedAudit(w, i, v);
      forall r | r in i.reports
        ensures GoodReport(r)
      {
        PassedReports(w, i, v, r);
      }
      forall c | c in i.checks
        ensures c.passed
      {
        PassedChecks(w, i, v, c);
      }
      forall e | e in i.existingErrors || e in i.existingWarnings
        ensures e == []
      {
        PassedHasNoLines(w, i, v, e);
      }
    }
  }

  // ----- which lines are listed -----

  predicate Of(i: Inputs, task: string, r: Report) {
    r in i.reports && r.taskId == task
  }

  /** True of the inputs, and an error. */
  ghost predicate IsError(i: Inputs, n: Note) {
    match n
    case MissingReport(t) => exists r :: Of(i, t, r) && !r.present
    case BadMeta(t) => exists r :: Of(i, t, r) && r.present && !r.metaValid
    case BadMarkdown(t) => exists r :: Of(i, t, r) && r.present && !r.markdownValid
    case BadIdentity(t) => exists r :: Of(i, t, r) && r.present && !r.identityValid
    case TaskIs(t, status) =>
      && (exists r :: Of(i, t, r) && r.runtime == status)
      && (status == TaskFailed || status == TaskVerificationFailed || (status == TaskCancelled && !i.cancelled))
    case EnvelopeIs(t, e) => (exists r :: Of(i, t, r) && r.envelope == e) && (e == FailedEnvelope || e == CancelledEnvelope)
    case UnauthorizedFile(p) => p in i.audit.unauthorized
    case RiskyChange(path, reason) => HighRisk(path, true, reason) in i.highRisk
    case FailedCheck(c) => Check(c, false) in i.checks
    case _ => false
  }

  /** True of the inputs, and a warning. */
  ghost predicate IsWarning(i: Inputs, n: Note) {
    match n
    case TaskIs(t, status) => (exists r :: Of(i, t, r) && r.runtime == status) && (status == TaskBlocked || status == TaskVerifiedPartial)
    case EnvelopeIs(t, e) => (exists r :: Of(i, t, r) && r.envelope == e) && (e == BlockedEnvelope || e == PartialEnvelope)
    case PendingFor(p) => p in i.pending
    case UncertainFile(p) => p in i.audit.ownerUncertain
    case EphemeralSeen(n) => n == |i.audit.ephemeral| > 0
    case RiskyChange(path, reason) => HighRisk(path, false, reason) in i.highRisk
    case _ => false
  }

  function ReportNotes(r: Report): set<Note> {
    {MissingReport(r.taskId), BadMeta(r.taskId), BadMarkdown(r.taskId), BadIdentity(r.taskId), TaskIs(r.taskId, r.runtime),
     EnvelopeIs(r.taskId, r.envelope)}
  }

  lemma FormErrorIsNote(w: Wording, i: Inputs, r: Report, e: string)
    requires Of(i, r.taskId, r) && e in FormErrors(w, r)
    ensures exists n :: IsError(i, n) && e == w(n)
  {
    var n :| n in ReportNotes(r) && e == w(n) && IsError(i, n);
  }

  lemma StatusErrorIsNote(w: Wording, i: Inputs, r: Report, e: string)
    requires Of(i, r.taskId, r) && e in StatusErrors(w, r, i.cancelled)
    ensures exists n :: IsError(i, n) && e == w(n)
  {
    var n :| n in ReportNotes(r) && e == w(n) && IsError(i, n);
  }

  /** The note about a report, if the line is not the report's own error. */
  lemma ReportErrorIsNote(w: Wording, i: Inputs, r: Report, e: string)
    requires r in i.reports && e in ReportErrors(w, r, i.cancelled)
    ensures (e == r.error != []) || exists n :: IsError(i, n) && e == w(n)
  {
    assert Of(i, r.taskId, r);
    if e in FormErrors(w, r) {
      FormErrorIsNote(w, i, r, e);
    } else if e in StatusErrors(w, r, i.cancelled) {
      StatusErrorIsNote(w, i, r, e);
    }
  }

  lemma ReportWarningIsNote(w: Wording, i: Inputs, r: Report, e: string)
    requires r in i.reports && e in ReportWarnings(w, r)
    ensures exists n :: IsWarning(i, n) && e == w(n)
  {
    assert Of(i, r.taskId, r);
    var n :| n in ReportNotes(r) && e == w(n) && IsWarning(i, n);
  }

  lemma InErrors(w: Wording, i: Inputs, e: string)
    ensures e in ErrorLines(w, i) <==>
            || e in i.existingErrors
            || (exists r :: r in i.reports && e in ReportErrors(w, r, i.cancelled))
            || (exists p :: p in i.audit.unauthorized && e == w(UnauthorizedFile(p)))
            || (exists h :: h in i.highRisk && e in RiskLines(w, h, true))
            || (exists c :: c in i.checks && e in CheckLines(w, c))
  {
    CollectMember(i.reports, (r: Report) => ReportErrors(w, r, i.cancelled), e);
    CollectMember(i.audit.unauthorized, (p: string) => [w(UnauthorizedFile(p))], e);
    CollectMember(i.highRisk, (h: HighRisk) => RiskLines(w, h, true), e);
    CollectMember(i.checks, (c: Check) => CheckLines(w, c), e);
  }

  lemma InWarnings(w: Wording, i: Inputs, e: string)
    ensures e in WarningLines(w, i) <==>
            || e in i.existingWarnings
            || (exists r :: r in i.reports && e in ReportWarnings(w, r))
            || (exists p :: p in i.pending && e == w(PendingFor(p)))
            || (exists p :: p in i.audit.ownerUncertain && e == w(UncertainFile(p)))
            || e in EphemeralLines(w, i.audit)
            || (exists h :: h in i.highRisk && e in RiskLines(w, h, false))
  {
    CollectMember(i.reports, (r: Report) => ReportWarnings(w, r), e);
    CollectMember(i.pending, (p: Pending) => [w(PendingFor(p))], e);
    CollectMember(i.audit.ownerUncertain, (p: string) => [w(UncertainFile(p))], e);
    CollectMember(i.highRisk, (h: HighRisk) => RiskLines(w, h, false), e);
  }

  lemma ErrorNoteIsLine(w: Wording, i: Inputs, n: Note)
    requires IsError(i, n)
    ensures w(n) in ErrorLines(w, i)
  {
    InErrors(w, i, w(n));
    match n {
      case MissingReport(t) => var r :| Of(i, t, r) && !r.present; assert w(n) in ReportErrors(w, r, i.cancelled);
      case BadMeta(t) => var r :| Of(i, t, r) && r.present && !r.metaValid; assert w(n) in ReportErrors(w, r, i.cancelled);
      case BadMarkdown(t) => var r :| Of(i, t, r) && r.present && !r.markdownValid; assert w(n) in ReportErrors(w, r, i.cancelled);
      case BadIdentity(t) => var r :| Of(i, t, r) && r.present && !r.identityValid; assert w(n) in ReportErrors(w, r, i.cancelled);
      case TaskIs(t, status) => var r :| Of(i, t, r) && r.runtime == status; assert w(n) in ReportErrors(w, r, i.cancelled);
      case EnvelopeIs(t, e) => var r :| Of(i, t, r) && r.envelope == e; assert w(n) in ReportErrors(w, r, i.cancelled);
      case UnauthorizedFile(p) =>
      case RiskyChange(path, reason) => assert w(n) in RiskLines(w, HighRisk(path, true, reason), true);
      case FailedCheck(c) => assert w(n) in CheckLines(w, Check(c, false));
    }
  }

  lemma WarningNoteIsLine(w: Wording, i: Inputs, n: Note)
    requires IsWarning(i, n)
    ensures w(n) in WarningLines(w, i)
  {
    InWarnings(w, i, w(n));
    match n {
      case TaskIs(t, status) => var r :| Of(i, t, r) && r.runtime == status; assert w(n) in ReportWarnings(w, r);
      case EnvelopeIs(t, e) => var r :| Of(i, t, r) && r.envelope == e; assert w(n) in ReportWarnings(w, r);
      case PendingFor(p) =>
      case UncertainFile(p) =>
      case EphemeralSeen(count) =>
      case RiskyChange(path, reason) => assert w(n) in RiskLines(w, HighRisk(path, false, reason), false);
    }
  }

  lemma ErrorLineIsNote(w: Wording, i: Inputs, e: string)
    requires e in ErrorLines(w, i)
    ensures e in i.existingErrors || (exists r :: r in i.reports && e == r.error != []) || exists n :: IsError(i, n) && e == w(n)
  {
    InErrors(w, i, e);
    if r :| r in i.reports && e in ReportErrors(w, r, i.cancelled) {
      ReportErrorIsNote(w, i, r, e);
    } else if p :| p in i.audit.unauthorized && e == w(UnauthorizedFile(p)) {
      assert IsError(i, UnauthorizedFile(p));
    } else if h :| h in i.highRisk && e in RiskLines(w, h, true) {
      assert h == HighRisk(h.path, true, h.reason) && IsError(i, RiskyChange(h.path, h.reason));
    } else if c :| c in i.checks && e in CheckLines(w, c) {
      assert c == Check(c.command, false) && IsError(i, FailedCheck(c.command));
    }
  }

  lemma WarningLineIsNote(w: Wording, i: Inputs, e: string)
    requires e in WarningLines(w, i)
    ensures e in i.existingWarnings || exists n :: IsWarning(i, n) && e == w(n)
  {
    InWarnings(w, i, e);
    if r :| r in i.reports && e in ReportWarnings(w, r) {
      ReportWarningIsNote(w, i, r, e);
    } else if p :| p in i.pending && e == w(PendingFor(p)) {
      assert IsWarning(i, PendingFor(p));
    } else if p :| p in i.audit.ownerUncertain && e == w(UncertainFile(p)) {
      assert IsWarning(i, UncertainFile(p));
    } else if e in EphemeralLines(w, i.audit) {
      assert IsWarning(i, EphemeralSeen(|i.audit.ephemeral|));
    } else if h :| h in i.highRisk && e in RiskLines(w, h, false) {
      assert h == HighRisk(h.path, false, h.reason) && IsWarning(i, RiskyChange(h.path, h.reason));
    }
  }

  lemma ReportErrorIsLine(w: Wording, i: Inputs, r: Report)
    requires r in i.reports && r.error != []
    ensures r.error in ErrorLines(w, i)
  {
    InErrors(w, i, r.error);
    assert r.error in ReportErrors(w, r, i.cancelled);
  }

  lemma ListedMember(out: seq<string>, lines: seq<string>, e: string)
    requires Listed(out, lines)
    ensures e in out <==> e in lines && e != []
  {
    assert e in out <==> e in Elements(out);
  }

  /** The error list holds the given errors, the reports' own and the wording of every error that is true, and nothing else. */
  lemma ErrorsAreTrueNotes(w: Wording, i: Inputs, v: Verification, e: string)
    requires Evaluates(w, i, v)
    ensures e in v.errors <==>
            && e != []
            && (e in i.existingErrors || (exists r :: r in i.reports && e == r.error) || exists n :: IsError(i, n) && e == w(n))
  {
    ListedMember(v.errors, ErrorLines(w, i), e);
    if e in ErrorLines(w, i) {
      ErrorLineIsNote(w, i, e);
    }
    if r :| r in i.reports && e == r.error != [] {
      ReportErrorIsLine(w, i, r);
    }
    if n :| IsError(i, n) && e == w(n) {
      ErrorNoteIsLine(w, i, n);
    }
    if e in i.existingErrors {
      InErrors(w, i, e);
    }
  }

  lemma WarningsAreTrueNotes(w: Wording, i: Inputs, v: Verification, e: string)
    requires Evaluates(w, i, v)
    ensures e in v.warnings <==> e != [] && (e in i.existingWarnings || exists n :: IsWarning(i, n) && e == w(n))
  {
    ListedMember(v.warnings, WarningLines(w, i), e);
    if e in WarningLines(w, i) {
      WarningLineIsNote(w, i, e);
    }
    if n :| IsWarning(i, n) && e == w(n) {
      WarningNoteIsLine(w, i, n);
    }
    if e in i.existingWarnings {
      InWarnings(w, i, e);
    }
  }

  lemma PendingAreMessages(w: Wording, i: Inputs, v: Verification, e: string)
    requires Evaluates(w, i, v)
    ensures e in v.pending <==> e != [] && exists p :: p in i.pending && e == p.messageId
  {
    ListedMember(v.pending, PendingLines(i), e);
    CollectMember(i.pending, (p: Pending) => [p.messageId], e);
  }

  // ----- what each verdict means -----

  /** With an error, missing, not valid, of the wrong worker, or of a task that failed. */
  predicate BadReport(r: Report) {
    || r.error != [] || !r.present || !r.metaValid || !r.markdownValid || !r.identityValid
    || r.runtime == TaskFailed || r.runtime == TaskVerificationFailed || r.runtime == TaskCancelled
    || r.envelope == FailedEnvelope || r.envelope == CancelledEnvelope
  }

  predicate AtFault(i: Inputs) {
    || (exists e :: e in i.existingErrors && e != [])
    || (exists r :: r in i.reports && BadReport(r))
    || i.audit.unauthorized != []
    || (exists h :: h in i.highRisk && h.isError)
    || (exists c :: c in i.checks && !c.passed)
  }

  predicate HeldUp(i: Inputs) {
    i.pending != [] || exists r :: r in i.reports && (r.runtime == TaskBlocked || r.envelope == BlockedEnvelope)
  }

  lemma BadReportHasError(w: Wording, r: Report)
    ensures BadReport(r) <==> exists e :: e in ReportErrors(w, r, false) && e != []
  {
    ReportLinesNotEmpty(w, r);
    if BadReport(r) {
      assert ReportErrors(w, r, false) != [];
      assert ReportErrors(w, r, false)[0] in ReportErrors(w, r, false);
    }
  }

  lemma FaultHasLine(w: Wording, i: Inputs)
    requires !i.cancelled && AtFault(i)
    ensures exists e :: e in ErrorLines(w, i) && e != []
  {
    if e :| e in i.existingErrors && e != [] {
      InErrors(w, i, e);
    } else if r :| r in i.reports && BadReport(r) {
      BadReportHasError(w, r);
      var e :| e in ReportErrors(w, r, false) && e != [];
      InErrors(w, i, e);
    } else if i.audit.unauthorized != [] {
      ErrorNoteIsLine(w, i, UnauthorizedFile(i.audit.unauthorized[0]));
    } else if h :| h in i.highRisk && h.isError {
      assert h == HighRisk(h.path, true, h.reason);
      ErrorNoteIsLine(w, i, RiskyChange(h.path, h.reason));
    } else if c :| c in i.checks && !c.passed {
      assert c == Check(c.command, false);
      ErrorNoteIsLine(w, i, FailedCheck(c.command));
    }
  }

  lemma LineHasFault(w: Wording, i: Inputs, e: string)
    requires !i.cancelled && e in ErrorLines(w, i) && e != []
    ensures AtFault(i)
  {
    InErrors(w, i, e);
    if r :| r in i.reports && e in ReportErrors(w, r, i.cancelled) {
      BadReportHasError(w, r);
    }
  }

  /** Which verdict it is, from the inputs alone: exactly one of the five applies. */
  lemma VerdictIff(w: Wording, i: Inputs, v: Verification)
    requires Evaluates(w, i, v)
    ensures v.result == Cancelled <==> i.cancelled
    ensures v.result == Failed <==> !i.cancelled && AtFault(i)
    ensures v.result == Blocked <==> !i.cancelled && !AtFault(i) && HeldUp(i)
    ensures v.result == PassedWithWarnings <==> !i.cancelled && !AtFault(i) && !HeldUp(i) && !Spotless(i)
    ensures v.result == Passed <==> Spotless(i)
  {
    PassedIffSpotless(w, i, v);
    ListedSome(v.errors, ErrorLines(w, i));
    if !i.cancelled {
      if AtFault(i) {
        FaultHasLine(w, i);
      } else if e :| e in ErrorLines(w, i) && e != [] {
        LineHasFault(w, i, e);
      }
    }
  }
}
