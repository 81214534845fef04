/** What the worldview shows of a container, field by field: the last event that had something
    to say about it since the container was last evicted. */
module Axes {
  import opened Text
  import opened Worldview

  /** The events observed of a container since its last eviction, oldest first. */
  function Own(es: seq<Event>, cid: string): seq<Event> {
    if es == [] then []
    else
      var before, e := Own(es[..|es| - 1], cid), es[|es| - 1];
      if e.cid != cid then before else if e.Destroyed? then [] else before + [e]
  }

  /** The last of what the events say, if any says something. */
  function Last<T>(es: seq<Event>, says: Event -> Option<T>): Option<T> {
    if es == [] then None
    else if says(es[|es| - 1]).Some? then says(es[|es| - 1])
    else Last(es[..|es| - 1], says)
  }

  function Or<T>(x: Option<T>, otherwise: T): T { match x case Some(v) => v case None => otherwise }

  function Unless(text: string, empty: string): Option<string> { if text == empty then None else Some(text) }

  // ---------------------------------------------------------------- what an event says

  predicate OfSession(e: Event) { e.Observed? && e.body.OnSession? }
  predicate OfRegistry(e: Event) { e.Observed? && e.body.OnRegistry? }

  /** The session status: of the last dialer message, or degraded by a reap since. */
  function SaysStatus(e: Event): Option<SessionStatus> {
    if OfSession(e) then
      Some(match e.body.sm
           case Connecting => ConnectingTo
           case Connected(_, _) => ConnectedTo
           case ConnectFailed(_) => SessionFailed
           case ConnectBroken(_) => SessionBroken)
    else if OfRegistry(e) && e.body.rm.Reap? then Some(Degraded)
    else None
  }

  /** The session error: a connection clears it, every failure sets it, and a distrust or a reap
      does if it has a detail. */
  function SaysError(e: Event): Option<string> {
    if OfSession(e) then
      match e.body.sm
      case Connecting => None
      case Connected(_, _) => Some("")
      case ConnectFailed(d) => Some(d)
      case ConnectBroken(d) => Some(d)
    else if OfRegistry(e) && (e.body.rm.Untrusted? || e.body.rm.Reap?) then Unless(e.body.rm.detail, "")
    else None
  }

  function SaysAddress(e: Event): Option<string> { if OfSession(e) then Unless(e.body.address, "") else None }
  function SaysAttempts(e: Event): Option<int> { if OfSession(e) && e.body.attempts != 0 then Some(e.body.attempts) else None }

  /** The peer, by name and thumbprint, of the last connection made. */
  function SaysPeer(e: Event): Option<(string, string)> {
    if OfSession(e) && e.body.sm.Connected? then Some((e.body.sm.peer, e.body.sm.thumbprint)) else None
  }

  /** Only a successful registration registers. */
  function SaysRegistered(e: Event): Option<bool> {
    if OfRegistry(e) && e.body.rm == Registered(true) then Some(true) else None
  }

  /** A successful registration restores trust, and a distrust gives its reason. */
  function SaysUntrusted(e: Event): Option<string> {
    if OfRegistry(e) && e.body.rm == Registered(true) then Some("")
    else if OfRegistry(e) && e.body.rm.Untrusted? then Some(e.body.rm.reason)
    else None
  }

  function SaysName(e: Event): Option<string> { if e.Observed? then Unless(e.name, "") else None }
  function SaysProject(e: Event): Option<string> { if e.Observed? then Unless(e.project, "") else None }
  function SaysTime(e: Event): Option<int> { if e.Observed? then Some(e.at) else None }

  // ---------------------------------------------------------------- the laws

  lemma LastMore<T>(es: seq<Event>, e: Event, says: Event -> Option<T>)
    ensures Last(es + [e], says) == if says(e).Some? then says(e) else Last(es, says)
  {
    assert (es + [e])[..|es|] == es;
  }

  ghost predicate ShowsSession(s: Session, own: seq<Event>) {
    && s.status == Or(Last(own, SaysStatus), NoSession)
    && s.lastError == Or(Last(own, SaysError), "")
    && s.address == Or(Last(own, SaysAddress), "")
    && s.attempts == Or(Last(own, SaysAttempts), 0)
    && (s.peer, s.thumbprint) == Or(Last(own, SaysPeer), ("", ""))
  }

  ghost predicate ShowsTrust(a: Agent, own: seq<Event>) {
    a.registered == Or(Last(own, SaysRegistered), false) && a.untrusted == Or(Last(own, SaysUntrusted), "")
  }

  /** Everything the entry of a container shows but the exec phase. */
  ghost predicate Shows(a: Agent, own: seq<Event>) {
    && ShowsSession(a.session, own) && ShowsTrust(a, own)
    && a.name == Or(Last(own, SaysName), "")
    && a.project == Or(Last(own, SaysProject), "")
    && a.updatedAt == Or(Last(own, SaysTime), 0)
  }

  lemma AllMore(own: seq<Event>, e: Event)
    ensures Last(own + [e], SaysStatus) == (if SaysStatus(e).Some? then SaysStatus(e) else Last(own, SaysStatus))
    ensures Last(own + [e], SaysError) == (if SaysError(e).Some? then SaysError(e) else Last(own, SaysError))
    ensures Last(own + [e], SaysAddress) == (if SaysAddress(e).Some? then SaysAddress(e) else Last(own, SaysAddress))
    ensures Last(own + [e], SaysAttempts) == (if SaysAttempts(e).Some? then SaysAttempts(e) else Last(own, SaysAttempts))
    ensures Last(own + [e], SaysPeer) == (if SaysPeer(e).Some? then SaysPeer(e) else Last(own, SaysPeer))
    ensures Last(own + [e], SaysRegistered) == (if SaysRegistered(e).Some? then SaysRegistered(e) else Last(own, SaysRegistered))
    ensures Last(own + [e], SaysUntrusted) == (if SaysUntrusted(e).Some? then SaysUntrusted(e) else Last(own, SaysUntrusted))
    ensures Last(own + [e], SaysName) == (if SaysName(e).Some? then SaysName(e) else Last(own, SaysName))
    ensures Last(own + [e], SaysProject) == (if SaysProject(e).Some? then SaysProject(e) else Last(own, SaysProject))
    ensures Last(own + [e], SaysTime) == (if SaysTime(e).Some? then SaysTime(e) else Last(own, SaysTime))
  {
    hide Last, SaysStatus, SaysError, SaysAddress, SaysAttempts, SaysPeer, SaysRegistered, SaysUntrusted, SaysName, SaysProject, SaysTime;
    LastMore(own, e, SaysStatus);
    LastMore(own, e, SaysError);
    LastMore(own, e, SaysAddress);
    LastMore(own, e, SaysAttempts);
    LastMore(own, e, SaysPeer);
    LastMore(own, e, SaysRegistered);
    LastMore(own, e, SaysUntrusted);
    LastMore(own, e, SaysName);
    LastMore(own, e, SaysProject);
    LastMore(own, e, SaysTime);
  }

  lemma StepShows(agents: map<string, Agent>, own: seq<Event>, e: Event)
    requires e.Observed? && e.cid != "" && Shows(Current(agents, e.cid), own)
    ensures Shows(Current(Apply(agents, e), e.cid), own + [e])
  {
    hide Last, ShowsSession, ShowsTrust, SaysStatus, SaysError, SaysAddress, SaysAttempts, SaysPeer, SaysRegistered, SaysUntrusted, ProjectBody;
    AllMore(own, e);
    var a := Current(agents, e.cid);
    SessionStep(a, own, e);
    TrustStep(a, own, e);
    BodyKeepsNames(e.body, e.at);
  }

  lemma BodyKeepsNames(body: Body, at: int)
    ensures forall b: Agent :: var c := ProjectBody(b, body, at); c.name == b.name && c.project == b.project && c.updatedAt == b.updatedAt
  {
    hide ProjectExec, ProjectSession;
  }

  lemma TrustStep(a: Agent, own: seq<Event>, e: Event)
    requires e.Observed? && ShowsTrust(a, own)
    ensures forall b: Agent :: b.registered == a.registered && b.untrusted == a.untrusted ==> ShowsTrust(ProjectBody(b, e.body, e.at), own + [e])
  {
    AllMore(own, e);
    hide Last, ProjectExec, ProjectSession, SaysStatus, SaysError, SaysAddress, SaysAttempts, SaysPeer, SaysName, SaysProject, SaysTime;
  }

  lemma SessionStep(a: Agent, own: seq<Event>, e: Event)
    requires e.Observed? && ShowsSession(a.session, own)
    ensures forall b: Agent :: b.session == a.session ==> ShowsSession(ProjectBody(b, e.body, e.at).session, own + [e])
  {
    AllMore(own, e);
    hide Last, ProjectExec, SaysRegistered, SaysUntrusted, SaysName, SaysProject, SaysTime;
  }

  lemma NothingShown()
    ensures Shows(NEW_AGENT, [])
  {
  }

  /** However the events of all containers interleave: a container has an entry exactly when it
      was observed since its last eviction, and the entry shows what those events say. */
  lemma {:induction false} EntryShowsEvents(es: seq<Event>, cid: string)
    requires cid != ""
    ensures var agents := ApplyAll(map[], es);
            (cid in agents <==> Own(es, cid) != []) && Shows(Current(agents, cid), Own(es, cid))
    decreases |es|
  {
    hide Shows, ProjectBody;
    if es == [] {
      NothingShown();
    } else {
      var front, e := es[..|es| - 1], es[|es| - 1];
      EntryShowsEvents(front, cid);
      if e.cid == cid && e.Observed? {
        StepShows(ApplyAll(map[], front), Own(front, cid), e);
      } else if e.cid == cid {
        NothingShown();
      }
    }
  }

  // ---------------------------------------------------------------- the exec phase

  function StatusOf(ms: seq<Stamped>): ExecStatus {
    if ms == [] then NoExec
    else
      match ms[|ms| - 1].0
      case ExecStarted(_) => RunningExec
      case ExecCompleted => CompletedExec
      case ExecFailed(_) => FailedExec
      case _ => StatusOf(ms[..|ms| - 1])
  }

  function ErrorOf(ms: seq<Stamped>): string {
    if ms == [] then ""
    else
      match ms[|ms| - 1].0
      case ExecStarted(_) => ""
      case ExecCompleted => ""
      case ExecFailed(d) => d
      case StepFailed(_, _, d) => d
      case _ => ErrorOf(ms[..|ms| - 1])
  }

  /** The step last started, completed or failed in the current phase. */
  function StepOf(ms: seq<Stamped>): Option<(string, int)> {
    if ms == [] then None
    else
      match ms[|ms| - 1].0
      case ExecStarted(_) => None
      case StepStarted(n, i) => Some((n, i))
      case StepCompleted(n, i) => Some((n, i))
      case StepFailed(n, i, _) => Some((n, i))
      case _ => StepOf(ms[..|ms| - 1])
  }

  /** The phase's step count and the time it began. */
  function BeginOf(ms: seq<Stamped>): Option<(int, int)> {
    if ms == [] then None
    else if ms[|ms| - 1].0.ExecStarted? then Some((ms[|ms| - 1].0.stepCount, ms[|ms| - 1].1))
    else BeginOf(ms[..|ms| - 1])
  }

  /** The time the phase last ended, if it has. */
  function EndOf(ms: seq<Stamped>): Option<int> {
    if ms == [] || ms[|ms| - 1].0.ExecStarted? then None
    else if ms[|ms| - 1].0.ExecCompleted? || ms[|ms| - 1].0.ExecFailed? then Some(ms[|ms| - 1].1)
    else EndOf(ms[..|ms| - 1])
  }

  /** When the run shown began and ended, and how many steps it announced. */
  lemma {:induction false} TimesShown(ms: seq<Stamped>)
    ensures var x := Fold(ZERO, ms);
            && x.stepCount == (if Or(BeginOf(ms), (0, 0)).0 < 0 then 0 else Or(BeginOf(ms), (0, 0)).0)
            && x.startedAt == Or(BeginOf(ms), (0, 0)).1
            && (EndOf(ms).Some? ==> x.completedAt == if EndOf(ms).value < x.startedAt then x.startedAt else EndOf(ms).value)
            && (EndOf(ms).None? ==> x.completedAt == 0)
    decreases |ms|
  {
    if ms != [] {
      TimesShown(ms[..|ms| - 1]);
    }
  }

  /** The exec phase shows its last boundary, its last error, its last step, clamped into the
      step count, and when it began and ended, the end no earlier than the beginning. */
  lemma {:induction false} PhaseShown(ms: seq<Stamped>)
    ensures var x := Fold(ZERO, ms);
            && x.status == StatusOf(ms) && x.lastError == ErrorOf(ms)
            && x.stepName == Or(StepOf(ms), ("", 0)).0
            && x.stepCount == (if Or(BeginOf(ms), (0, 0)).0 < 0 then 0 else Or(BeginOf(ms), (0, 0)).0)
            && (0 <= Or(StepOf(ms), ("", 0)).1 && (x.stepCount == 0 || Or(StepOf(ms), ("", 0)).1 < x.stepCount) ==> x.stepIndex == Or(StepOf(ms), ("", 0)).1)
            && x.startedAt == Or(BeginOf(ms), (0, 0)).1
            && (EndOf(ms).Some? ==> x.completedAt == if EndOf(ms).value < x.startedAt then x.startedAt else EndOf(ms).value)
            && (EndOf(ms).None? ==> x.completedAt == 0)
    decreases |ms|
  {
    TimesShown(ms);
    hide BeginOf, EndOf;
    if ms != [] {
      PhaseShown(ms[..|ms| - 1]);
    }
  }
}
