/**
 Terminating a process tree (internal/process/controller.go:48-268): interrupt, then term, then kill,
 with an inspection after each. The process manager and the clock may behave in any way.
 */
module Termination {
  import opened Text

  /** What the manager says about the root process, and about its group. */
  datatype Root = RootMissing | RootError | RootFound(same: bool)

  datatype Group = GroupMissing | GroupUnsupported | GroupError | Members(pids: seq<int>)

  /** The caller's context and the wait's own deadline. */
  datatype Context = Live | DeadlineExceeded | ContextCancelled

  /** All that can happen at one point in time: the i-th look at the world finds world(i). */
  datatype Moment = Moment(context: Context, during: Context, root: Root, group: Group, signalWorks: bool)

  type World = nat -> Moment

  datatype Finding = Gone | Reused | Present(remaining: seq<int>) | Unclear(context: Context)

  datatype Signal = Interrupt | Term | Kill

  /** A look under a context, with what the manager answered, or an attempted signal and whether it went out. */
  datatype Act = Looked(context: Context, moment: Moment) | Signalled(signal: Signal, worked: bool)

  /** inspectTreeState: an error is Unclear, with the context's state when that is the reason. */
  function Inspection(context: Context, m: Moment): Finding {
    if context != Live then Unclear(context)
    else
      match m.root
      case RootMissing =>
        (match m.group
         case GroupUnsupported => Gone
         case GroupError => Unclear(Live)
         case GroupMissing => Gone
         case Members(pids) => if pids == [] then Gone else Present(pids))
      case RootError => Unclear(Live)
      case RootFound(same) =>
        if !same then Reused
        else
          match m.group
          case Members(pids) => if pids == [] then Gone else Present(pids)
          case _ => Unclear(Live)
  }

  predicate Exited(f: Finding) {
    f == Gone || f == Reused
  }

  /** What a look found. */
  function Found(a: Act): Finding {
    if a.Looked? then Inspection(a.context, a.moment) else Unclear(Live)
  }

  /** The root is another process than the one to be terminated. */
  predicate AnotherProcess(m: Moment) {
    m.root == RootFound(false)
  }

  /** The root is gone and nothing of its group is left or can be listed, or the root stands without a group. */
  predicate TreeGone(m: Moment) {
    || (m.root == RootMissing && (m.group == Members([]) || m.group == GroupMissing || m.group == GroupUnsupported))
    || (m.root == RootFound(true) && m.group == Members([]))
  }

  /** An inspection says "exited" exactly on such answers of the manager, under a live context. */
  lemma ExitedIff(context: Context, m: Moment)
    ensures Inspection(context, m) == Reused <==> context == Live && AnotherProcess(m)
    ensures Inspection(context, m) == Gone <==> context == Live && TreeGone(m)
    ensures Inspection(context, m).Present? <==>
            context == Live && (m.root == RootMissing || m.root == RootFound(true)) && m.group.Members? && m.group.pids != []
    ensures Inspection(context, m).Present? ==> Inspection(context, m).remaining == m.group.pids
    ensures Inspection(context, m).Unclear? ==> Inspection(context, m).context == context
  {
  }

  function Remaining(f: Finding): seq<int> {
    if f.Present? then f.remaining else []
  }

  /** Interrupt, term and kill in that order, none skipped and none repeated. */
  const Escalation: seq<Signal> := [Interrupt, Term, Kill]

  function Signals(log: seq<Act>): seq<Signal> {
    if log == [] then []
    else
      var last := log[|log| - 1];
      Signals(log[..|log| - 1]) + if last.Signalled? then [last.signal] else []
  }

  lemma {:induction false} SignalsGrow(log: seq<Act>, a: Act)
    ensures Signals(log + [a]) == Signals(log) + if a.Signalled? then [a.signal] else []
  {
    assert (log + [a])[..|log|] == log;
  }

  /** The last thing done was a look on which the manager answered that the tree is gone or the pid is another process. */
  predicate EndsExited(log: seq<Act>) {
    && log != [] && log[|log| - 1].Looked? && log[|log| - 1].context == Live
    && (TreeGone(log[|log| - 1].moment) || AnotherProcess(log[|log| - 1].moment))
  }

  /** Every signal directly follows an inspection that did not find the tree gone or the pid reused. */
  predicate SignalsJustified(log: seq<Act>) {
    forall i :: 0 <= i < |log| && log[i].Signalled? ==> i > 0 && log[i - 1].Looked? && !Exited(Found(log[i - 1]))
  }

  /** The processes the last inspection found. */
  function LastSeen(log: seq<Act>): seq<int> {
    if log != [] then Remaining(Found(log[|log| - 1])) else []
  }

  datatype Report = Report(interruptSent: bool, termSent: bool, killSent: bool, treeExited: bool, pidReused: bool, orphanRisk: bool,
                           remaining: seq<int>)

  const Nothing := Report(false, false, false, false, false, false, [])

  /** The signals that went out. */
  function Sent(log: seq<Act>): set<Signal> {
    set a | a in log && a.Signalled? && a.worked :: a.signal
  }

  /** What a report may claim in view of what was seen and done. */
  predicate Honest(log: seq<Act>, r: Report) {
    && (r.treeExited ==> EndsExited(log) && !r.orphanRisk)
    && (r.pidReused <==> r.treeExited && AnotherProcess(log[|log| - 1].moment))
    && (r.orphanRisk ==> Signals(log) == Escalation && !EndsExited(log) && r.remaining == LastSeen(log))
    && (r.interruptSent <==> Interrupt in Sent(log)) && (r.termSent <==> Term in Sent(log)) && (r.killSent <==> Kill in Sent(log))
  }

  class Controller {
    const world: World
    var at: nat
    ghost var log: seq<Act>

    constructor (world: World)
      ensures this.world == world && at == 0 && log == []
    {
      this.world, at := world, 0;
      log := [];
    }

    /** One look at the process tree, under the given context. */
    method Inspect(context: Context) returns (f: Finding)
      modifies this
      ensures f == Inspection(context, world(old(at)))
      ensures log == old(log) + [Looked(context, world(old(at)))] && at == old(at) + 1
    {
      f := Inspection(context, world(at));
      log := log + [Looked(context, world(at))];
      at := at + 1;
    }

    /** An attempted signal; it is attempted even when the manager then reports an error. */
    method Send(signal: Signal) returns (sent: bool)
      modifies this
      ensures log == old(log) + [Signalled(signal, sent)] && at == old(at) + 1
    {
      sent := world(at).signalWorks;
      log := log + [Signalled(signal, sent)];
      at := at + 1;
    }

    /** Looks only: the log grows by inspections alone and ends with the one returned. */
    ghost predicate OnlyLooked(before: seq<Act>, f: Finding)
      reads this
    {
      && |log| > |before| && log[..|before|] == before
      && (forall i :: |before| <= i < |log| ==> log[i].Looked?)
      && Found(log[|log| - 1]) == f
    }

    /** The context was found in this state at some moment since. */
    ghost predicate Saw(from: nat, c: Context)
      reads this
    {
      exists i: nat :: from <= i <= at && world(i).context == c
    }

    /**
     WaitTreeGone under a deadline: polls is how many rounds fit before it. The finding is that of
     the last inspection; failed tells that an error came with it, from the inspection or the context.
     Giving up without an error takes all the rounds.
     */
    method WaitTreeGone(polls: nat) returns (f: Finding, failed: Option<Context>)
      modifies this
      ensures OnlyLooked(old(log), f)
      ensures failed.None? ==> !f.Unclear?
      ensures failed.None? && !Exited(f) ==> at == old(at) + polls + 1
      ensures failed.Some? ==> f.Unclear? || (failed.value != Live && Saw(old(at), failed.value))
    {
      var left := polls;
      ghost var start := log;
      while true
        invariant log == start || (|log| > |start| && log[..|start|] == start)
        invariant forall i :: |start| <= i < |log| ==> log[i].Looked?
        invariant 0 <= left <= polls && at == old(at) + (polls - left)
        decreases left
      {
        var m := world(at);
        if m.context != Live {
          f := Inspect(Live);
          return f, Some(m.context);
        }
        f := Inspect(m.during);
        if f.Unclear? {
          return f, Some(f.context);
        }
        if Exited(f) || left == 0 {
          return f, None;
        }
        if world(at).context != Live {
          var context := world(at).context;
          f := Inspect(Live);
          return f, Some(context);
        }
        left := left - 1;
      }
    }

    /** waitStage: a passed deadline leads to one more inspection whose error is ignored. */
    method WaitStage(grace: Option<nat>) returns (f: Finding, ok: bool)
      modifies this
      ensures OnlyLooked(old(log), f)
      ensures grace.None? ==> (ok <==> !f.Unclear?)
      ensures !ok ==> f.Unclear? || Saw(old(at), ContextCancelled)
    {
      if grace.None? {
        f := Inspect(world(at).context);
        return f, !f.Unclear?;
      }
      var failed;
      f, failed := WaitTreeGone(grace.value);
      if failed.None? {
        return f, true;
      }
      if failed.value == DeadlineExceeded {
        f := Inspect(world(at).context);
        return f, true;
      }
      ok := false;
    }

    /** One stage: the signal, then the wait. */
    method Stage(signal: Signal, grace: Option<nat>) returns (sent: bool, f: Finding, ok: bool)
      requires log != [] && log[|log| - 1].Looked? && !Exited(Found(log[|log| - 1]))
      requires SignalsJustified(log)
      modifies this
      ensures SignalsJustified(log) && Signals(log) == old(Signals(log)) + [signal]
      ensures log != [] && log[|log| - 1].Looked? && Found(log[|log| - 1]) == f
      ensures Sent(log) == old(Sent(log)) + if sent then {signal} else {}
    {
      sent := Send(signal);
      ghost var signalled := log;
      SignalsGrow(old(log), Signalled(signal, sent));
      f, ok := WaitStage(grace);
      LooksAddNoSignals(signalled, log);
    }

    /** For every behaviour of the manager the report is honest and the signals are in order. */
    method TerminateTree(complete: bool, graces: (Option<nat>, Option<nat>, Option<nat>)) returns (r: Report, ok: bool)
      requires log == []
      modifies this
      ensures Honest(log, r) && SignalsJustified(log) && Signals(log) <= Escalation
      ensures r.treeExited ==> ok
      ensures ok ==> r.treeExited != r.orphanRisk
    {
      r := Nothing;
      if !complete {
        return r, false;
      }
      var f := Inspect(world(at).context);
      SignalsGrow([], log[0]);
      if f.Unclear? {
        return r, false;
      }
      if Exited(f) {
        return Settle(r, f), true;
      }
      r, ok := Escalate(r, graces);
    }

    /** What is known between two stages: the signals tried so far, and a last look that found the tree standing. */
    ghost predicate Between(tried: seq<Signal>, r: Report)
      reads this
    {
      && log != [] && log[|log| - 1].Looked? && !Exited(Found(log[|log| - 1])) && SignalsJustified(log) && Signals(log) == tried
      && (forall x :: x in Sent(log) ==> x in tried)
      && r == Report(Interrupt in Sent(log), Term in Sent(log), Kill in Sent(log), false, false, false, [])
    }

    /** One stage and what follows from it: the next one, or an end. */
    method Try(signal: Signal, grace: Option<nat>, r: Report) returns (next: Report, ended: bool, ok: bool, left: seq<int>)
      requires |Signals(log)| < 3 && Between(Escalation[..|Signals(log)|], r) && signal == Escalation[|Signals(log)|]
      modifies this
      ensures ended ==> Honest(log, next) && SignalsJustified(log) && Signals(log) == Escalation[..|old(Signals(log))| + 1]
      ensures ended ==> (ok <==> next.treeExited) && !next.orphanRisk
      ensures !ended ==> Signals(log) == Escalation[..|old(Signals(log))| + 1] && Between(Signals(log), next)
      ensures left == LastSeen(log)
    {
      var sent, f, fine := Stage(signal, grace);
      next := Note(r, signal, sent);
      ended, ok, left := true, false, Remaining(f);
      ExitedIff(log[|log| - 1].context, log[|log| - 1].moment);
      if !fine {
        next := next.(remaining := left);
      } else if Exited(f) {
        next, ok := Settle(next, f), true;
      } else {
        ended := false;
      }
    }

    /** The three stages. */
    method Escalate(first: Report, graces: (Option<nat>, Option<nat>, Option<nat>)) returns (r: Report, ok: bool)
      requires Between([], first)
      modifies this
      ensures Honest(log, r) && SignalsJustified(log) && Signals(log) <= Escalation
      ensures r.treeExited ==> ok
      ensures ok ==> r.treeExited != r.orphanRisk
    {
      var ended, left;
      r, ended, ok, left := Try(Interrupt, graces.0, first);
      if ended {
        return;
      }
      r, ended, ok, left := Try(Term, graces.1, r);
      if ended {
        return;
      }
      r, ended, ok, left := Try(Kill, graces.2, r);
      if ended {
        return;
      }
      ExitedIff(log[|log| - 1].context, log[|log| - 1].moment);
      r, ok := r.(orphanRisk := true, remaining := left), true;
    }
  }

  function Note(r: Report, signal: Signal, sent: bool): Report {
    match signal
    case Interrupt => r.(interruptSent := sent)
    case Term => r.(termSent := sent)
    case Kill => r.(killSent := sent)
  }

  function Settle(r: Report, f: Finding): Report {
    r.(treeExited := true, pidReused := f == Reused)
  }

  /** Inspections behind a log add no signals and need no justification. */
  lemma {:induction false} LooksAddNoSignals(before: seq<Act>, log: seq<Act>)
    requires |log| >= |before| && log[..|before|] == before && forall i :: |before| <= i < |log| ==> log[i].Looked?
    ensures Signals(log) == Signals(before) && Sent(log) == Sent(before)
    ensures SignalsJustified(before) ==> SignalsJustified(log)
    decreases |log|
  {
    if |log| == |before| {
      assert log == before;
    } else {
      var n := |log| - 1;
      assert log[..n][..|before|] == before;
      LooksAddNoSignals(before, log[..n]);
      JustifiedPrefix(log);
    }
  }

  lemma JustifiedPrefix(log: seq<Act>)
    requires log != [] && log[|log| - 1].Looked?
    ensures SignalsJustified(log[..|log| - 1]) ==> SignalsJustified(log)
  {
    var n := |log| - 1;
    if SignalsJustified(log[..n]) {
      forall i | 0 <= i < |log| && log[i].Signalled?
        ensures i > 0 && log[i - 1].Looked? && !Exited(Found(log[i - 1]))
      {
        assert log[..n][i] == log[i];
      }
    }
  }
}
