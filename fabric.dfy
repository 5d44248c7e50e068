/** The part of Fabric that the provisioning tasks rely on: a connection that runs shell
    commands and uploads files, and the rule that an un-warned command exiting non-zero
    raises `UnexpectedExit` and so ends the task. Which commands fail on the target host is a
    fixed set chosen when the connection is made. */
module Fabric {
  import opened Commands

  datatype Option<T> = None | Some(value: T)

  /** One call made on a connection: `c.run(Line(cmd))` / `c.run(Line(cmd), warn=True)`, or
      `c.put(Local(file), Remote(file))`. */
  datatype Call = Run(cmd: Command, warn: bool) | Put(file: Upload)

  /** What a task does with a connection, as a tree of calls.
      - `Then(call, next)`: make the call; an un-warned run that fails raises and ends the script.
      - `Check(probe, yes, no)`: `if c.run(probe, warn=True): yes else: no`; never raises.
      - `Try(cmd, failed, ok)`: `try: c.run(cmd) except UnexpectedExit: failed else: ok`.
      - `Raise`: an exception not caused by a command (a missing dictionary key).
      - `Done`: the end of the task. */
  datatype Script =
    | Done
    | Raise
    | Then(call: Call, next: Script)
    | Check(probe: Command, yes: Script, no: Script)
    | Try(cmd: Command, failed: Script, ok: Script)

  /** The calls made so far, and whether the script ran to its end without raising. */
  datatype Outcome = Outcome(trace: seq<Call>, completed: bool)

  /** `call` raises `UnexpectedExit` on a host where the commands in `failing` exit non-zero. */
  predicate Raises(failing: iset<Command>, call: Call) {
    call.Run? && !call.warn && call.cmd in failing
  }

  /** Runs `s` on a host where exactly the commands in `failing` exit non-zero, after the
      calls already in `trace`. */
  function Exec(failing: iset<Command>, trace: seq<Call>, s: Script): Outcome
    decreases s
  {
    match s
    case Done => Outcome(trace, true)
    case Raise => Outcome(trace, false)
    case Then(call, next) =>
      if Raises(failing, call) then Outcome(trace + [call], false)
      else Exec(failing, trace + [call], next)
    case Check(probe, yes, no) =>
      if probe in failing then Exec(failing, trace + [Run(probe, true)], no)
      else Exec(failing, trace + [Run(probe, true)], yes)
    case Try(cmd, failed, ok) =>
      if cmd in failing then Exec(failing, trace + [Run(cmd, false)], failed)
      else Exec(failing, trace + [Run(cmd, false)], ok)
  }

  /** Every call that occurs anywhere in `s`, on any branch. */
  function Calls(s: Script): set<Call>
    decreases s
  {
    match s
    case Done => {}
    case Raise => {}
    case Then(call, next) => {call} + Calls(next)
    case Check(probe, yes, no) => {Run(probe, true)} + Calls(yes) + Calls(no)
    case Try(cmd, failed, ok) => {Run(cmd, false)} + Calls(failed) + Calls(ok)
  }

  /** A script only appends to the trace, and only calls that occur somewhere in it. */
  lemma {:induction false} ExecIssuesOwnCalls(failing: iset<Command>, trace: seq<Call>, s: Script)
    ensures |trace| <= |Exec(failing, trace, s).trace|
    ensures Exec(failing, trace, s).trace[..|trace|] == trace
    ensures forall i :: |trace| <= i < |Exec(failing, trace, s).trace| ==>
      Exec(failing, trace, s).trace[i] in Calls(s)
    decreases s
  {
    match s
    case Done =>
    case Raise =>
    case Then(call, next) =>
      if !Raises(failing, call) { ExecIssuesOwnCalls(failing, trace + [call], next); }
    case Check(probe, yes, no) =>
      ExecIssuesOwnCalls(failing, trace + [Run(probe, true)], yes);
      ExecIssuesOwnCalls(failing, trace + [Run(probe, true)], no);
    case Try(cmd, failed, ok) =>
      ExecIssuesOwnCalls(failing, trace + [Run(cmd, false)], failed);
      ExecIssuesOwnCalls(failing, trace + [Run(cmd, false)], ok);
  }

  /** `s` has no `except` handler and raises only through a failing command. */
  predicate NoHandler(s: Script)
    decreases s
  {
    match s
    case Done => true
    case Raise => false
    case Then(_, next) => NoHandler(next)
    case Check(_, yes, no) => NoHandler(yes) && NoHandler(no)
    case Try(_, _, _) => false
  }

  /** Without handlers, an un-warned command that fails ends the script at once: no call
      before the last one raised, and a run that does not complete ends with the call that
      raised. */
  lemma {:induction false} ExecStops(failing: iset<Command>, trace: seq<Call>, s: Script)
    requires NoHandler(s)
    ensures var r := Exec(failing, trace, s);
      && (forall i :: |trace| <= i < |r.trace| - 1 ==> !Raises(failing, r.trace[i]))
      && (r.completed ==> forall i :: |trace| <= i < |r.trace| ==> !Raises(failing, r.trace[i]))
      && (!r.completed ==> |trace| < |r.trace| && Raises(failing, r.trace[|r.trace| - 1]))
    decreases s
  {
    match s
    case Done =>
    case Then(call, next) =>
      if !Raises(failing, call) {
        var t := trace + [call];
        ExecStops(failing, t, next);
        ExecIssuesOwnCalls(failing, t, next);
        var r := Exec(failing, t, next);
        assert r.trace[|trace|] == r.trace[..|t|][|trace|] == call;
      }
    case Check(probe, yes, no) =>
      var t := trace + [Run(probe, true)];
      var next := if probe in failing then no else yes;
      ExecStops(failing, t, next);
      ExecIssuesOwnCalls(failing, t, next);
      var r := Exec(failing, t, next);
      assert r.trace[|trace|] == r.trace[..|t|][|trace|] == Run(probe, true);
  }

  /** The calls `calls`, made one after the other, with no branch and no handler. */
  function Straight(calls: seq<Call>): Script
    decreases |calls|
  {
    if |calls| == 0 then Done else Then(calls[0], Straight(calls[1..]))
  }

  /** A straight run of calls makes them in order up to the first one that raises, and
      completes exactly when none of them raises. */
  lemma {:induction false} ExecStraight(failing: iset<Command>, trace: seq<Call>, calls: seq<Call>)
    ensures var r := Exec(failing, trace, Straight(calls));
      && |trace| <= |r.trace| <= |trace| + |calls|
      && r.trace == trace + calls[..|r.trace| - |trace|]
      && (r.completed <==> forall i :: 0 <= i < |calls| ==> !Raises(failing, calls[i]))
      && (r.completed ==> r.trace == trace + calls)
      && (forall j :: 0 <= j < |r.trace| - |trace| - 1 ==> !Raises(failing, calls[j]))
      && (!r.completed ==> |trace| < |r.trace| && Raises(failing, calls[|r.trace| - |trace| - 1]))
    decreases |calls|
  {
    if |calls| > 0 {
      var t1 := trace + [calls[0]];
      if Raises(failing, calls[0]) {
        assert calls[..1] == [calls[0]];
      } else {
        ExecStraight(failing, t1, calls[1..]);
        var r := Exec(failing, t1, Straight(calls[1..]));
        assert calls[..|r.trace| - |trace|] == [calls[0]] + calls[1..][..|r.trace| - |t1|];
        assert t1 + calls[1..] == trace + calls;
        forall i | 0 < i < |calls|
          ensures calls[i] == calls[1..][i - 1]
        {
        }
      }
    }
  }

  /** A straight run has no handler. */
  lemma {:induction false} StraightNoHandler(calls: seq<Call>)
    ensures NoHandler(Straight(calls))
    decreases |calls|
  {
    if |calls| > 0 {
      StraightNoHandler(calls[1..]);
    }
  }

  /** The first call of a straight run. */
  lemma StraightStep(calls: seq<Call>)
    ensures |calls| > 0 ==> Straight(calls) == Then(calls[0], Straight(calls[1..]))
  {
  }

  /** The body of a task: steps run one after the other, each named by a label and given
      by its script. */
  datatype Plan<Label> = End | Step(name: Label, script: Script, rest: Plan<Label>)

  /** Runs the steps of `plan` in order; the first step that raises ends the task. */
  function ExecPlan<L>(failing: iset<Command>, trace: seq<Call>, plan: Plan<L>): Outcome
    decreases plan
  {
    match plan
    case End => Outcome(trace, true)
    case Step(_, s, rest) =>
      var o := Exec(failing, trace, s);
      if o.completed then ExecPlan(failing, o.trace, rest) else o
  }

  /** Every call that occurs in some step of `plan`. */
  function PlanCalls<L>(plan: Plan<L>): set<Call>
    decreases plan
  {
    match plan
    case End => {}
    case Step(_, s, rest) => Calls(s) + PlanCalls(rest)
  }

  /** The first step of a plan: the rest starts where the step ends, unless it raised. */
  lemma ExecPlanStep<L>(failing: iset<Command>, trace: seq<Call>, plan: Plan<L>, o: Outcome)
    requires plan.Step? && o == Exec(failing, trace, plan.script)
    ensures ExecPlan(failing, trace, plan) == if o.completed then ExecPlan(failing, o.trace, plan.rest) else o
  {
  }

  /** A task only appends to the trace, and only calls that occur in one of its steps. */
  lemma {:induction false} ExecPlanIssuesOwnCalls<L>(failing: iset<Command>, trace: seq<Call>, plan: Plan<L>)
    ensures |trace| <= |ExecPlan(failing, trace, plan).trace|
    ensures ExecPlan(failing, trace, plan).trace[..|trace|] == trace
    ensures forall i :: |trace| <= i < |ExecPlan(failing, trace, plan).trace| ==>
      ExecPlan(failing, trace, plan).trace[i] in PlanCalls(plan)
    decreases plan
  {
    match plan
    case End =>
    case Step(_, s, rest) =>
      var o := Exec(failing, trace, s);
      ExecIssuesOwnCalls(failing, trace, s);
      if o.completed {
        ExecPlanIssuesOwnCalls(failing, o.trace, rest);
        var r := ExecPlan(failing, o.trace, rest).trace;
        assert r[..|trace|] == r[..|o.trace|][..|trace|];
        forall i | |trace| <= i < |r|
          ensures r[i] in PlanCalls(plan)
        {
          if i < |o.trace| {
            assert r[i] == r[..|o.trace|][i];
          }
        }
      }
  }

  /** A Fabric connection to one host. Each method records its call in `trace`; its
      last ensures says that the call is the first step of any script beginning with it. */
  class Connection {
    /** `c.host` */
    const host: string
    /** `c.connect_kwargs['password']`, when the key is present */
    const password: Option<string>
    /** the commands that exit non-zero on this host */
    const failing: iset<Command>
    /** every call made on this connection, oldest first */
    var trace: seq<Call>

    constructor (host: string, password: Option<string>, failing: iset<Command>)
      ensures this.host == host && this.password == password && this.failing == failing
      ensures trace == []
    {
      this.host := host;
      this.password := password;
      this.failing := failing;
      trace := [];
    }

    /** `c.run(Line(cmd))`: `ok` is false exactly when the command fails, which raises `UnexpectedExit`. */
    method Run(cmd: Command) returns (ok: bool)
      modifies this
      ensures trace == old(trace) + [Call.Run(cmd, false)]
      ensures ok <==> cmd !in failing
      ensures forall k :: Exec(failing, old(trace), Then(Call.Run(cmd, false), k)) ==
                          (if ok then Exec(failing, trace, k) else Outcome(trace, false))
      ensures forall failed, k :: Exec(failing, old(trace), Try(cmd, failed, k)) ==
                                  Exec(failing, trace, if ok then k else failed)
    {
      trace := trace + [Call.Run(cmd, false)];
      ok := cmd !in failing;
    }

    /** `c.run(Line(cmd), warn=True)`: never raises; `ok` is the truth value of the result. */
    method RunWarn(cmd: Command) returns (ok: bool)
      modifies this
      ensures trace == old(trace) + [Call.Run(cmd, true)]
      ensures ok <==> cmd !in failing
      ensures forall k :: Exec(failing, old(trace), Then(Call.Run(cmd, true), k)) == Exec(failing, trace, k)
      ensures forall yes, no :: Exec(failing, old(trace), Check(cmd, yes, no)) ==
                                Exec(failing, trace, if ok then yes else no)
    {
      trace := trace + [Call.Run(cmd, true)];
      ok := cmd !in failing;
    }

    /** `c.put(Local(file), Remote(file))` */
    method Put(file: Upload)
      modifies this
      ensures trace == old(trace) + [Call.Put(file)]
      ensures forall k :: Exec(failing, old(trace), Then(Call.Put(file), k)) == Exec(failing, trace, k)
    {
      trace := trace + [Call.Put(file)];
    }
  }
}
