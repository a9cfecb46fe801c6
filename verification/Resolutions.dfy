/**
 Typed resolutions of decision messages: validation, the tagged and the historical encodings, and
 comparison by meaning (internal/message/resolution.go:32-219).
 */
module Resolutions {
  import opened Text
  import opened Paths

  datatype Type = Instruction | Question | ScopeExpansionRequest | PermissionRequest | OtherType(name: string)

  predicate IsDecisionType(t: Type) {
    t.Question? || t.ScopeExpansionRequest? || t.PermissionRequest?
  }

  datatype Kind = AnswerKind | DecisionKind | OtherKind(name: string)

  datatype Decision = Decision(allowed: bool, reason: string, allowPublic: bool)

  /** The tagged union; a missing answer or decision is not the same as an empty one. */
  datatype Resolution = Resolution(kind: Kind, answer: Option<string>, decision: Option<Decision>)

  /**
   Encoded bytes. The spelling stands for everything in the text that does not carry meaning (white
   space, order, unknown fields); the encoder always writes the empty one. Equality of these values
   is equality of bytes.
   */
  datatype Raw =
    | Malformed(text: string)
    | Tagged(value: Resolution, spelling: string)
    | Untagged(answer: Option<string>, decision: Option<Decision>, spelling: string)

  function NewAnswer(text: string): Resolution {
    Resolution(AnswerKind, Some(text), None)
  }

  function NewDecision(d: Decision): Resolution {
    Resolution(DecisionKind, None, Some(d))
  }

  /** Nothing is left of it after trimming. */
  predicate Blank(s: string) {
    forall i :: 0 <= i < |s| ==> IsSpace(s[i])
  }

  lemma {:induction false} TrimRightBlank(s: string)
    ensures TrimRight(s) == "" <==> Blank(s)
    decreases |s|
  {
    if s != "" && IsSpace(s[|s| - 1]) {
      TrimRightBlank(s[..|s| - 1]);
    }
  }

  lemma {:induction false} BlankIsTrimmed(s: string)
    ensures TrimSpace(s) == "" <==> Blank(s)
  {
    if s != "" && IsSpace(s[0]) {
      BlankIsTrimmed(s[1..]);
      assert s == [s[0]] + s[1..];
    } else {
      TrimRightBlank(s);
    }
  }

  datatype Fault = NotResolvable | WrongKind | Missing | Stray | Both | NoAnswer | NoReason | PublicInterface | Undecodable

  datatype Outcome<+T> = Passes(value: T) | Fails(fault: Fault)

  function Check(ok: bool, fault: Fault): Outcome<()> {
    if ok then Passes(()) else Fails(fault)
  }

  function ValidateDecision(r: Resolution): Outcome<()> {
    if r.kind != DecisionKind then Fails(WrongKind)
    else if r.decision.None? then Fails(Missing)
    else if r.answer.Some? then Fails(Stray)
    else Check(r.decision.value.allowed || !Blank(r.decision.value.reason), NoReason)
  }

  function ValidateResolutionForType(t: Type, r: Resolution): Outcome<()> {
    if r.answer.Some? && r.decision.Some? then Fails(Both)
    else
      match t
      case Question =>
        if r.kind != AnswerKind then Fails(WrongKind)
        else if r.answer.None? then Fails(Missing)
        else if Blank(r.answer.value) then Fails(NoAnswer)
        else Check(r.decision.None?, Stray)
      case PermissionRequest =>
        var v := ValidateDecision(r);
        if v.Fails? then v
        else Check(!r.decision.value.allowPublic, PublicInterface)
      case ScopeExpansionRequest =>
        var v := ValidateDecision(r);
        if v.Fails? then v
        else Check(r.decision.value.allowed || !r.decision.value.allowPublic, PublicInterface)
      case _ => Fails(NotResolvable)
  }

  predicate Valid(t: Type, r: Resolution) {
    ValidateResolutionForType(t, r).Passes?
  }

  predicate Explained(t: Type, d: Decision) {
    (d.allowed || !Blank(d.reason)) && (d.allowPublic ==> t == ScopeExpansionRequest && d.allowed)
  }

  /** A valid answer is exactly what its constructor builds, with content. */
  lemma ValidAnswers(r: Resolution)
    ensures Valid(Question, r) <==> r.answer.Some? && r == NewAnswer(r.answer.value) && !Blank(r.answer.value)
  {
  }

  /** A valid decision is exactly what its constructor builds: a reasoned denial, or an allowance. */
  lemma ValidDecisions(t: Type, r: Resolution)
    requires t == PermissionRequest || t == ScopeExpansionRequest
    ensures Valid(t, r) <==> r.decision.Some? && r == NewDecision(r.decision.value) && Explained(t, r.decision.value)
  {
  }

  predicate Meaningful(d: Decision) {
    d.allowed || !Blank(d.reason) || d.allowPublic
  }

  function DecodeLegacy(t: Type, answer: Option<string>, decision: Option<Decision>): Outcome<Resolution> {
    var text := if answer.Some? then answer.value else "";
    match t
    case Question =>
      if Blank(text) then Fails(NoAnswer)
      else if decision.Some? && Meaningful(decision.value) then Fails(Both)
      else Passes(NewAnswer(text))
    case PermissionRequest => DecodeLegacyDecision(t, text, decision)
    case ScopeExpansionRequest => DecodeLegacyDecision(t, text, decision)
    case _ => Fails(NotResolvable)
  }

  function DecodeLegacyDecision(t: Type, text: string, decision: Option<Decision>): Outcome<Resolution> {
    if !Blank(text) then Fails(Both)
    else if decision.None? then Fails(Missing)
    else
      var r := NewDecision(decision.value);
      var v := ValidateResolutionForType(t, r);
      if v.Passes? then Passes(r) else Fails(v.fault)
  }

  function DecodeResolutionForType(t: Type, raw: Raw): Outcome<Resolution> {
    match raw
    case Malformed(_) => Fails(Undecodable)
    case Tagged(r, _) =>
      var v := ValidateResolutionForType(t, r);
      if v.Passes? then Passes(r) else Fails(v.fault)
    case Untagged(a, d, _) => DecodeLegacy(t, a, d)
  }

  function CanonicalResolutionJSON(t: Type, r: Resolution): Outcome<Raw> {
    var v := ValidateResolutionForType(t, r);
    if v.Passes? then Passes(Tagged(r, "")) else Fails(v.fault)
  }

  function NormalizeResolution(t: Type, raw: Raw): Outcome<Raw> {
    match DecodeResolutionForType(t, raw)
    case Fails(e) => Fails(e)
    case Passes(r) => CanonicalResolutionJSON(t, r)
  }

  function ResolutionsEqualForType(t: Type, left: Raw, right: Raw): bool {
    match DecodeResolutionForType(t, left)
    case Fails(_) => false
    case Passes(l) =>
      match DecodeResolutionForType(t, right)
      case Fails(_) => false
      case Passes(r) =>
        match CanonicalResolutionJSON(t, l)
        case Fails(_) => false
        case Passes(lc) =>
          match CanonicalResolutionJSON(t, r)
          case Fails(_) => false
          case Passes(rc) => lc == rc
  }

  /** Whatever decodes, from either encoding, is valid for the type; so its type is a decision type. */
  lemma DecodedIsValid(t: Type, raw: Raw)
    requires DecodeResolutionForType(t, raw).Passes?
    ensures Valid(t, DecodeResolutionForType(t, raw).value) && IsDecisionType(t)
  {
    match raw
    case Tagged(r, _) => ValidIsDecision(t, r);
    case Untagged(a, d, _) => LegacyIsValid(t, a, d);
  }

  lemma ValidIsDecision(t: Type, r: Resolution)
    requires Valid(t, r)
    ensures IsDecisionType(t)
  {
  }

  lemma LegacyIsValid(t: Type, answer: Option<string>, decision: Option<Decision>)
    requires DecodeLegacy(t, answer, decision).Passes?
    ensures Valid(t, DecodeLegacy(t, answer, decision).value) && IsDecisionType(t)
  {
    if t == Question {
      ValidAnswers(NewAnswer(answer.value));
    }
  }

  /** Encoding then decoding gives the resolution back, for exactly the valid resolutions. */
  lemma CanonicalRoundTrip(t: Type, r: Resolution)
    ensures CanonicalResolutionJSON(t, r).Passes? <==> Valid(t, r)
    ensures Valid(t, r) ==> DecodeResolutionForType(t, CanonicalResolutionJSON(t, r).value) == Passes(r)
  {
  }

  /** Normalising keeps the meaning, never fails on what decodes, and is idempotent. */
  lemma NormalizeKeepsMeaning(t: Type, raw: Raw)
    ensures NormalizeResolution(t, raw).Passes? <==> DecodeResolutionForType(t, raw).Passes?
    ensures NormalizeResolution(t, raw).Passes? ==>
              var n := NormalizeResolution(t, raw).value;
              && DecodeResolutionForType(t, n) == DecodeResolutionForType(t, raw)
              && NormalizeResolution(t, n) == Passes(n)
  {
    if DecodeResolutionForType(t, raw).Passes? {
      DecodedIsValid(t, raw);
      CanonicalRoundTrip(t, DecodeResolutionForType(t, raw).value);
    }
  }

  /** Comparison by meaning: equal exactly when both decode, to the same resolution. */
  lemma EqualIffSameMeaning(t: Type, left: Raw, right: Raw)
    ensures ResolutionsEqualForType(t, left, right) <==>
            DecodeResolutionForType(t, left).Passes? && DecodeResolutionForType(t, left) == DecodeResolutionForType(t, right)
  {
    if DecodeResolutionForType(t, left).Passes? {
      DecodedIsValid(t, left);
    }
    if DecodeResolutionForType(t, right).Passes? {
      DecodedIsValid(t, right);
    }
  }

  /**
   Which untagged resolutions decode: for a question a non-blank answer with no decision or one that says
   nothing at all, for a permission or a scope request a reasoned denial or an allowance with no or a
   blank answer.
   */
  lemma LegacyAcceptedIff(t: Type, answer: Option<string>, decision: Option<Decision>)
    ensures DecodeLegacy(t, answer, decision).Passes? <==>
            match t
            case Question =>
              && answer.Some? && !Blank(answer.value)
              && (decision.Some? ==> !decision.value.allowed && Blank(decision.value.reason) && !decision.value.allowPublic)
            case PermissionRequest => (answer.Some? ==> Blank(answer.value)) && decision.Some? && Explained(t, decision.value)
            case ScopeExpansionRequest => (answer.Some? ==> Blank(answer.value)) && decision.Some? && Explained(t, decision.value)
            case _ => false
  {
    if (t == PermissionRequest || t == ScopeExpansionRequest) && decision.Some? {
      ValidDecisions(t, NewDecision(decision.value));
    }
  }

  /** An old journal's untagged denial or answer means what the tagged form of it means. */
  lemma LegacyMeansTagged(t: Type, answer: Option<string>, decision: Option<Decision>, spelling: string)
    requires DecodeLegacy(t, answer, decision).Passes?
    ensures var r := DecodeLegacy(t, answer, decision).value;
      ResolutionsEqualForType(t, Untagged(answer, decision, spelling), Tagged(r, ""))
  {
    DecodedIsValid(t, Untagged(answer, decision, spelling));
    EqualIffSameMeaning(t, Untagged(answer, decision, spelling), Tagged(DecodeLegacy(t, answer, decision).value, ""));
  }
}
