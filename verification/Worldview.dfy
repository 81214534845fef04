/** The worldview: a fold of agent events, one entry per container. */
module Worldview {
  import opened Executor

  // ---------------------------------------------------------------- the exec axis

  datatype ExecStatus = NoExec | RunningExec | CompletedExec | FailedExec

  datatype Exec = Exec(
    status: ExecStatus, stepName: string, stepIndex: int, stepCount: int,
    startedAt: int, completedAt: int, lastError: string)

  const ZERO := Exec(NoExec, "", 0, 0, 0, 0, "")

  function ExecRunning(stepCount: int, at: int): Exec {
    Exec(RunningExec, "", 0, if stepCount < 0 then 0 else stepCount, at, 0, "")
  }

  function WithStep(x: Exec, name: string, index: int): Exec {
    var i := if index < 0 then 0 else index;
    x.(stepName := name, stepIndex := if x.stepCount > 0 && i >= x.stepCount then x.stepCount - 1 else i)
  }

  function Finish(x: Exec, status: ExecStatus, at: int, lastError: string): Exec {
    x.(status := status, completedAt := if at < x.startedAt then x.startedAt else at, lastError := lastError)
  }

  function ProjectExec(x: Exec, m: Message, at: int): Exec {
    match m
    case ExecStarted(n) => ExecRunning(n, at)
    case StepStarted(name, i) => WithStep(x, name, i)
    case StepCompleted(name, i) => WithStep(x, name, i)
    case StepFailed(name, i, detail) => WithStep(x, name, i).(lastError := detail)
    case ExecCompleted => Finish(x, CompletedExec, at, "")
    case ExecFailed(detail) => Finish(x, FailedExec, at, detail)
  }

  /** Messages with the time they were stamped with. */
  type Stamped = (Message, int)

  function Fold(x: Exec, ms: seq<Stamped>): Exec {
    if ms == [] then x
    else
      var n := |ms| - 1;
      ProjectExec(Fold(x, ms[..n]), ms[n].0, ms[n].1)
  }

  lemma FoldAppend(x: Exec, a: seq<Stamped>, b: seq<Stamped>)
    ensures Fold(x, a + b) == Fold(Fold(x, a), b)
    decreases |b|
  {
    if b == [] {
      assert a + b == a;
    } else {
      var n := |b| - 1;
      assert (a + b)[..|a + b| - 1] == a + b[..n];
      FoldAppend(x, a, b[..n]);
    }
  }

  /** Any trace, any time stamps, from the zero value: the step index is in range, and a
      finished phase does not end before it started. */
  lemma {:induction false} AlwaysInRange(ms: seq<Stamped>)
    ensures var x := Fold(ZERO, ms);
            && 0 <= x.stepIndex && 0 <= x.stepCount && (x.stepCount > 0 ==> x.stepIndex < x.stepCount)
            && (x.status == CompletedExec || x.status == FailedExec ==> x.completedAt >= x.startedAt)
    decreases |ms|
  {
    if ms != [] {
      AlwaysInRange(ms[..|ms| - 1]);
    }
  }

  // ---------------------------------------------------------------- a run's trace, folded

  function Messages(ms: seq<Stamped>): (out: seq<Message>)
    ensures |out| == |ms| && forall i :: 0 <= i < |ms| ==> out[i] == ms[i].0
  {
    seq(|ms|, i requires 0 <= i < |ms| => ms[i].0)
  }

  /** Mid-run, n steps in. */
  predicate Midway(x: Exec, plan: seq<string>, n: nat)
    requires n <= |plan|
  {
    && x.status == RunningExec && x.stepCount == |plan| && x.lastError == ""
    && (n > 0 ==> x.stepName == plan[n - 1] && x.stepIndex == n - 1)
  }

  lemma {:induction false} CompletionsFold(x: Exec, plan: seq<string>, n: nat, ms: seq<Stamped>)
    requires n <= |plan| && Midway(x, plan, 0) && Messages(ms) == Completions(plan, n)
    ensures Midway(Fold(x, ms), plan, n)
    decreases n
  {
    if n > 0 {
      var k := |ms| - 2;
      var front := Completions(plan, n - 1);
      assert |front| == k;
      assert Messages(ms[..k]) == Messages(ms)[..k] == front;
      CompletionsFold(x, plan, n - 1, ms[..k]);
      assert ms == ms[..k] + ms[k..];
      FoldAppend(x, ms[..k], ms[k..]);
      TwoSteps(Fold(x, ms[..k]), plan, n, ms[k..]);
    }
  }

  lemma FoldOne(x: Exec, m: Stamped)
    ensures Fold(x, [m]) == ProjectExec(x, m.0, m.1)
  {
    assert [m][..0] == [];
  }

  lemma FoldTwo(x: Exec, m: Stamped, m': Stamped)
    ensures Fold(x, [m, m']) == ProjectExec(ProjectExec(x, m.0, m.1), m'.0, m'.1)
  {
    FoldOne(x, m);
    FoldOne(Fold(x, [m]), m');
    assert [m, m'] == [m] + [m'];
    FoldAppend(x, [m], [m']);
  }

  lemma TwoSteps(x: Exec, plan: seq<string>, n: nat, ms: seq<Stamped>)
    requires 0 < n <= |plan| && Midway(x, plan, n - 1)
    requires |ms| == 2 && ms[0].0 == StepStarted(plan[n - 1], n - 1) && ms[1].0 == StepCompleted(plan[n - 1], n - 1)
    ensures Midway(Fold(x, ms), plan, n)
  {
    assert ms == [ms[0], ms[1]];
    FoldTwo(x, ms[0], ms[1]);
    hide Fold;
  }

  /** What a run ends in. */
  ghost predicate Reached(x: Exec, plan: seq<string>, turns: seq<Turn>)
    requires |turns| == |plan|
  {
    var n := FirstFailure(turns);
    && x.stepCount == |plan| && x.completedAt >= x.startedAt
    && (if n == |plan| then
          x.status == CompletedExec && x.lastError == "" && (plan != [] ==> x.stepName == plan[n - 1] && x.stepIndex == n - 1)
        else
          x.status == FailedExec && x.lastError == TurnDetail(turns[n]) && x.stepName == plan[n] && x.stepIndex == n)
  }

  /** Folding the events of a run, from whatever state came before and whatever the stamps,
      ends in the state the run reached. */
  lemma TraceReaches(x: Exec, plan: seq<string>, turns: seq<Turn>, ms: seq<Stamped>)
    requires |turns| == |plan| && Messages(ms) == Trace(plan, turns)
    ensures Reached(Fold(x, ms), plan, turns)
  {
    hide Fold;
    var n := FirstFailure(turns);
    var k := 1 + |Completions(plan, n)|;
    var head, mid, last := ms[..1], ms[1..k], ms[k..];
    assert ms == head + (mid + last);
    FoldAppend(x, head, mid + last);
    FoldAppend(Fold(x, head), mid, last);
    assert head == [ms[0]];
    FoldOne(x, ms[0]);
    assert Messages(mid) == Messages(ms)[1..k] == Completions(plan, n);
    CompletionsFold(Fold(x, head), plan, n, mid);
    hide Completions;
    TailReaches(Fold(Fold(x, head), mid), plan, turns, ms, k);
  }

  lemma TailReaches(x: Exec, plan: seq<string>, turns: seq<Turn>, ms: seq<Stamped>, k: nat)
    requires |turns| == |plan| && Messages(ms) == Trace(plan, turns)
    requires k == 1 + |Completions(plan, FirstFailure(turns))| && Midway(x, plan, FirstFailure(turns))
    ensures Reached(Fold(x, ms[k..]), plan, turns)
  {
    hide Fold, Completions;
    var n, last := FirstFailure(turns), ms[k..];
    assert forall i :: 0 <= i < |last| ==> last[i].0 == Messages(ms)[k + i];
    if n == |plan| {
      assert last == [last[0]];
      FoldOne(x, last[0]);
    } else {
      LastThree(x, plan, n, TurnDetail(turns[n]), last);
    }
  }

  lemma LastThree(x: Exec, plan: seq<string>, n: nat, detail: string, ms: seq<Stamped>)
    requires n < |plan| && Midway(x, plan, n) && |ms| == 3
    requires ms[0].0 == StepStarted(plan[n], n) && ms[1].0 == StepFailed(plan[n], n, detail) && ms[2].0 == ExecFailed(detail)
    ensures var y := Fold(x, ms);
            && y.stepCount == |plan| && y.completedAt >= y.startedAt && y.status == FailedExec
            && y.lastError == detail && y.stepName == plan[n] && y.stepIndex == n
  {
    assert ms == [ms[0], ms[1]] + [ms[2]];
    FoldTwo(x, ms[0], ms[1]);
    FoldOne(Fold(x, [ms[0], ms[1]]), ms[2]);
    FoldAppend(x, [ms[0], ms[1]], [ms[2]]);
    hide Fold;
  }

  /** Completed with no error if and only if every step succeeded. */
  lemma CompletedIffAllSucceed(x: Exec, plan: seq<string>, turns: seq<Turn>, ms: seq<Stamped>)
    requires |turns| == |plan| && Messages(ms) == Trace(plan, turns)
    ensures var y := Fold(x, ms);
            (y.status == CompletedExec && y.lastError == "") <==> forall i :: 0 <= i < |turns| ==> Succeeds(turns[i])
  {
    hide Trace, Fold;
    TraceReaches(x, plan, turns, ms);
  }

  // ---------------------------------------------------------------- what the value type does not exclude

  /** A failed step reported after the run completed: Completed, with an error. */
  lemma StrayFailureLeavesError()
    ensures var x := Fold(ZERO, [(ExecStarted(1), 1), (ExecCompleted, 2), (StepFailed("s", 0, "late"), 3)]);
            x.status == CompletedExec && x.lastError == "late"
  {
    var ms: seq<Stamped> := [(ExecStarted(1), 1), (ExecCompleted, 2), (StepFailed("s", 0, "late"), 3)];
    assert ms[..2] == [ms[0], ms[1]] && ms[..2][..1] == [ms[0]] && [ms[0]][..0] == [];
    assert Fold(ZERO, ms[..1]) == ExecRunning(1, 1);
    assert Fold(ZERO, ms[..2]) == Finish(ExecRunning(1, 1), CompletedExec, 2, "");
  }

  predicate Boundary(m: Message) { m.ExecStarted? || m.ExecCompleted? || m.ExecFailed? }

  /** The error a stray step failure left since the last boundary. */
  function StrayError(ms: seq<Stamped>): string {
    if ms == [] then ""
    else
      var m := ms[|ms| - 1].0;
      if Boundary(m) then "" else if m.StepFailed? then m.detail else StrayError(ms[..|ms| - 1])
  }

  /** That is the only way: a completed phase shows an error exactly when a step failure with
      that detail arrived after the completion. */
  lemma {:induction false} CompletedErrorIffStray(ms: seq<Stamped>)
    ensures Fold(ZERO, ms).status == CompletedExec ==> Fold(ZERO, ms).lastError == StrayError(ms)
    decreases |ms|
  {
    if ms != [] {
      CompletedErrorIffStray(ms[..|ms| - 1]);
    }
  }

  // ---------------------------------------------------------------- the store

  datatype SessionStatus = NoSession | ConnectingTo | ConnectedTo | SessionFailed | SessionBroken | Degraded

  datatype Session = Session(status: SessionStatus, address: string, attempts: int, peer: string, thumbprint: string, lastError: string)

  datatype Agent = Agent(name: string, project: string, updatedAt: int, session: Session, exec: Exec, registered: bool, untrusted: string)

  const NEW_AGENT := Agent("", "", 0, Session(NoSession, "", 0, "", "", ""), ZERO, false, "")

  datatype SessionMessage = Connecting | Connected(peer: string, thumbprint: string) | ConnectFailed(detail: string) | ConnectBroken(detail: string)
  datatype RegistryMessage = Registered(ok: bool) | Untrusted(reason: string, detail: string) | Reap(detail: string)

  datatype Body =
    | OnSession(address: string, attempts: int, sm: SessionMessage)
    | OnExec(em: Message)
    | OnRegistry(rm: RegistryMessage)

  datatype Event = Observed(cid: string, name: string, project: string, body: Body, at: int) | Destroyed(cid: string)

  function ProjectSession(s: Session, address: string, attempts: int, m: SessionMessage): Session {
    var s' := s.(address := if address == "" then s.address else address, attempts := if attempts == 0 then s.attempts else attempts);
    match m
    case Connecting => s'.(status := ConnectingTo)
    case Connected(peer, thumb) => s'.(status := ConnectedTo, peer := peer, thumbprint := thumb, lastError := "")
    case ConnectFailed(d) => s'.(status := SessionFailed, lastError := d)
    case ConnectBroken(d) => s'.(status := SessionBroken, lastError := d)
  }

  function ProjectRegistry(a: Agent, m: RegistryMessage): Agent {
    match m
    case Registered(ok) => if ok then a.(registered := true, untrusted := "") else a
    case Untrusted(reason, d) =>
      a.(untrusted := reason, session := a.session.(lastError := if d == "" then a.session.lastError else d))
    case Reap(d) =>
      a.(session := a.session.(status := Degraded, lastError := if d == "" then a.session.lastError else d))
  }

  function ProjectBody(a: Agent, b: Body, at: int): Agent {
    match b
    case OnSession(address, attempts, m) => a.(session := ProjectSession(a.session, address, attempts, m))
    case OnExec(m) => a.(exec := ProjectExec(a.exec, m, at))
    case OnRegistry(m) => ProjectRegistry(a, m)
  }

  function Current(agents: map<string, Agent>, cid: string): Agent { if cid in agents then agents[cid] else NEW_AGENT }

  function Apply(agents: map<string, Agent>, e: Event): map<string, Agent> {
    match e
    case Destroyed(cid) => agents - {cid}
    case Observed(cid, name, project, body, at) =>
      if cid == "" then agents
      else
        var a := Current(agents, cid);
        var named := a.(name := if name == "" then a.name else name, project := if project == "" then a.project else project, updatedAt := at);
        agents[cid := ProjectBody(named, body, at)]
  }

  function ApplyAll(agents: map<string, Agent>, es: seq<Event>): map<string, Agent> {
    if es == [] then agents
    else Apply(ApplyAll(agents, es[..|es| - 1]), es[|es| - 1])
  }

  class AgentStore {
    var agents: map<string, Agent>

    constructor ()
      ensures agents == map[]
    {
      agents := map[];
    }

    method Project(cid: string, name: string, project: string, body: Body, at: int)
      modifies this
      ensures agents == Apply(old(agents), Observed(cid, name, project, body, at))
    {
      if cid == "" {
        return;
      }
      var cur := if cid in agents then agents[cid] else NEW_AGENT;
      if name != "" {
        cur := cur.(name := name);
      }
      if project != "" {
        cur := cur.(project := project);
      }
      cur := cur.(updatedAt := at);
      cur := ProjectBody(cur, body, at);
      agents := agents[cid := cur];
    }

    method Evict(cid: string)
      modifies this
      ensures agents == Apply(old(agents), Destroyed(cid))
    {
      agents := agents - {cid};
    }
  }

  /** The exec messages of one container since it was last evicted. */
  function ExecMessages(es: seq<Event>, cid: string): seq<Stamped> {
    if es == [] then []
    else
      var before, e := ExecMessages(es[..|es| - 1], cid), es[|es| - 1];
      if e.cid != cid then before
      else if e.Destroyed? then []
      else if e.body.OnExec? then before + [(e.body.em, e.at)]
      else before
  }

  /** However the events of all containers and axes interleave, a container's exec state is
      the fold of its own exec messages and of nothing else. */
  lemma {:induction false} ExecAxisIsolated(es: seq<Event>, cid: string)
    requires cid != ""
    ensures Current(ApplyAll(map[], es), cid).exec == Fold(ZERO, ExecMessages(es, cid))
    decreases |es|
  {
    hide ProjectExec, ProjectSession;
    if es != [] {
      var n := |es| - 1;
      var before, e := ExecMessages(es[..n], cid), es[n];
      ExecAxisIsolated(es[..n], cid);
      if e.cid == cid && e.Observed? && e.body.OnExec? {
        assert ExecMessages(es, cid) == before + [(e.body.em, e.at)];
        assert (before + [(e.body.em, e.at)])[..|before|] == before;
      }
    }
  }

  /** So a run whose events all arrive, in the midst of anything else but another run or an
      eviction of its container, leaves that container's entry as the run ended. */
  lemma RunVisibleInStore(es: seq<Event>, cid: string, plan: seq<string>, turns: seq<Turn>, prior: seq<Stamped>, ms: seq<Stamped>)
    requires cid != "" && |turns| == |plan|
    requires ExecMessages(es, cid) == prior + ms && Messages(ms) == Trace(plan, turns)
    ensures Reached(Current(ApplyAll(map[], es), cid).exec, plan, turns)
  {
    hide Trace, Reached, ApplyAll, ExecMessages, ProjectExec;
    ExecAxisIsolated(es, cid);
    FoldAppend(ZERO, prior, ms);
    TraceReaches(Fold(ZERO, prior), plan, turns, ms);
  }
}
