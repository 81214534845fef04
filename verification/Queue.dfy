/** The action queue: one worker, strict FIFO, consecutive reconciles run as one, and every
    accepted submission answered exactly once. */
module Queue {
  import opened Text

  datatype Kind = Unknown | Bringup | Teardown | Reconcile | Read | Enable | Disable | Bypass

  predicate Coalesces(k: Kind) { k == Reconcile }

  /** A queued submission: the number of its Submit call, and the store version its caller had
      committed before it submitted. */
  datatype Item = Item(id: nat, kind: Kind, commit: nat)

  // ---------------------------------------------------------------- groups

  function RunLength(k: Kind, items: seq<Item>): (n: nat)
    ensures n <= |items|
    ensures forall i :: 0 <= i < n ==> items[i].kind == k
    ensures n < |items| ==> items[n].kind != k
  {
    if items == [] || items[0].kind != k then 0 else 1 + RunLength(k, items[1..])
  }

  /** How many items of a non-empty buffer the worker takes in one go. */
  function GroupSize(buffer: seq<Item>): (n: nat)
    requires buffer != []
    ensures 1 <= n <= |buffer|
  {
    if Coalesces(buffer[0].kind) then 1 + RunLength(buffer[0].kind, buffer[1..]) else 1
  }

  /** One item, or reconciles only. */
  predicate LawfulGroup(g: seq<Item>) {
    g != [] && (|g| == 1 || forall x :: x in g ==> x.kind == Reconcile)
  }

  lemma GroupIsLawful(buffer: seq<Item>)
    requires buffer != []
    ensures LawfulGroup(buffer[..GroupSize(buffer)])
    ensures var n := GroupSize(buffer); n < |buffer| ==> !(Coalesces(buffer[0].kind) && buffer[n].kind == buffer[0].kind)
  {
    var n := GroupSize(buffer);
    forall x | x in buffer[..n] && n > 1 ensures x.kind == Reconcile {
      var i :| 0 <= i < n && buffer[i] == x;
      assert i > 0 ==> buffer[1..][i - 1] == x;
    }
    if n < |buffer| {
      assert buffer[n] == buffer[1..][n - 1];
    }
  }

  /** What the worker takes, exactly: a reconcile at the front with every reconcile right behind
      it, and anything else alone. */
  lemma GroupExactly(buffer: seq<Item>)
    requires buffer != []
    ensures var n := GroupSize(buffer);
            && (buffer[0].kind != Reconcile ==> n == 1)
            && (buffer[0].kind == Reconcile ==>
                  (forall i :: 0 <= i < n ==> buffer[i].kind == Reconcile) && (n < |buffer| ==> buffer[n].kind != Reconcile))
  {
    var n := GroupSize(buffer);
    assert forall i :: 0 < i < |buffer| ==> buffer[i] == buffer[1..][i - 1];
  }

  function Concat(groups: seq<seq<Item>>): seq<Item> {
    if groups == [] then [] else Concat(groups[..|groups| - 1]) + groups[|groups| - 1]
  }

  lemma ConcatAppend(groups: seq<seq<Item>>, g: seq<Item>)
    ensures Concat(groups + [g]) == Concat(groups) + g
  {
    assert (groups + [g])[..|groups|] == groups;
  }

  /** Taking a group moves it from the front of the buffer to the end of the groups. */
  lemma TakeKeeps(groups: seq<seq<Item>>, buffer: seq<Item>)
    requires buffer != []
    ensures var n := GroupSize(buffer);
            LawfulGroup(buffer[..n]) && Concat(groups + [buffer[..n]]) + buffer[n..] == Concat(groups) + buffer
  {
    hide Concat, LawfulGroup, GroupSize;
    var n := GroupSize(buffer);
    GroupIsLawful(buffer);
    ConcatAppend(groups, buffer[..n]);
    assert buffer == buffer[..n] + buffer[n..];
    Assoc(Concat(groups), buffer[..n], buffer[n..]);
  }

  lemma ConcatNothing()
    ensures Concat([]) == []
  {
  }

  // ---------------------------------------------------------------- the queue object

  class ActionQueue {
    var buffer: seq<Item>
    var closed: bool

    constructor ()
      ensures buffer == [] && !closed
    {
      buffer, closed := [], false;
    }

    method Submit(item: Item, nilClosure: bool) returns (accepted: bool)
      modifies this`buffer
      ensures accepted <==> !nilClosure && !closed
      ensures buffer == if accepted then old(buffer) + [item] else old(buffer)
    {
      if nilClosure || closed {
        return false;
      }
      buffer := buffer + [item];
      return true;
    }

    method Close()
      modifies this`closed
      ensures closed
    {
      closed := true;
    }

    method PopHead() returns (head: Item)
      requires buffer != []
      modifies this`buffer
      ensures [head] + buffer == old(buffer)
    {
      head := buffer[0];
      buffer := buffer[1..];
    }

    /** The worker's take: the head and, if it coalesces, every consecutive peer behind it. */
    method Next() returns (group: seq<Item>)
      modifies this`buffer
      ensures old(buffer) == [] ==> group == [] && buffer == []
      ensures old(buffer) != [] ==>
                group == old(buffer)[..GroupSize(old(buffer))] && buffer == old(buffer)[GroupSize(old(buffer))..]
    {
      if buffer == [] {
        return [];
      }
      ghost var all := buffer;
      var head := PopHead();
      group := [head];
      if Coalesces(head.kind) {
        ghost var rest := buffer;
        while buffer != [] && buffer[0].kind == head.kind
          invariant group + buffer == all && group != [] && group[0] == head
          invariant 1 + RunLength(head.kind, rest) == |group| + RunLength(head.kind, buffer)
          decreases |buffer|
        {
          var peer := PopHead();
          group := group + [peer];
        }
        assert |group| == GroupSize(all) by { assert rest == all[1..]; }
      }
      assert group == all[..|group|] && buffer == all[|group|..];
    }

    /** The worker beside open submissions: what arrives while a group runs waits behind it.
        Whatever arrives between takes, and wherever it is cut, the groups taken so far and
        the buffer are the arrivals in order. */
    method Serve(arrivals: seq<seq<Item>>) returns (groups: seq<seq<Item>>)
      requires !closed
      modifies this`buffer
      ensures Concat(groups) + buffer == old(buffer) + Concat(arrivals)
      ensures forall g :: g in groups ==> LawfulGroup(g)
    {
      hide Concat, LawfulGroup, GroupSize;
      groups := [];
      ConcatNothing();
      assert arrivals[..0] == [] && [] + buffer == buffer + [];
      for i := 0 to |arrivals|
        invariant Concat(groups) + buffer == old(buffer) + Concat(arrivals[..i])
        invariant forall g :: g in groups ==> LawfulGroup(g)
        invariant !closed
      {
        assert arrivals[..i + 1] == arrivals[..i] + [arrivals[i]];
        ConcatAppend(arrivals[..i], arrivals[i]);
        Assoc(Concat(groups), buffer, arrivals[i]);
        Assoc(old(buffer), Concat(arrivals[..i]), arrivals[i]);
        SubmitAll(arrivals[i]);
        if buffer != [] {
          TakeKeeps(groups, buffer);
          var group := Next();
          groups := groups + [group];
        }
      }
      assert arrivals[..|arrivals|] == arrivals;
    }

    method SubmitAll(items: seq<Item>)
      requires !closed
      modifies this`buffer
      ensures buffer == old(buffer) + items
    {
      for i := 0 to |items|
        invariant buffer == old(buffer) + items[..i]
      {
        assert items[..i + 1] == items[..i] + [items[i]];
        var accepted := Submit(items[i], false);
      }
      assert items[..|items|] == items;
    }

    /** After Close the worker runs what was accepted, group by group, and then exits. */
    method Drain() returns (groups: seq<seq<Item>>)
      requires closed
      modifies this`buffer
      ensures buffer == [] && Concat(groups) == old(buffer)
      ensures forall g :: g in groups ==> LawfulGroup(g)
    {
      hide Concat, LawfulGroup, GroupSize;
      groups := [];
      ConcatNothing();
      assert [] + buffer == buffer;
      while buffer != []
        invariant Concat(groups) + buffer == old(buffer)
        invariant forall g :: g in groups ==> LawfulGroup(g)
        decreases |buffer|
      {
        TakeKeeps(groups, buffer);
        var group := Next();
        groups := groups + [group];
      }
    }
  }

  // ---------------------------------------------------------------- runs of the whole system

  /** What a closure returns. A reconcile that restarted the stack synced routes computed from
      the store version it read. */
  datatype Result = Restarted(snapshot: nat) | Skipped | Failed | Done
  datatype Refusal = NilClosure | QueueClosed
  datatype Answer = Answer(id: nat, result: Result)

  /** The worker: idle, holding a group it has not run yet, or handing out a group's result. */
  datatype Worker = Idle | Holding(group: seq<Item>) | Replying(group: seq<Item>, result: Result, sent: nat) | Exited

  datatype State = State(
    buffer: seq<Item>, closed: bool, worker: Worker, store: nat, calls: nat,
    accepted: seq<Item>, refused: map<nat, Refusal>, groups: seq<seq<Item>>, results: seq<Result>, answers: seq<Answer>)

  const INIT := State([], false, Idle, 0, 0, [], map[], [], [], [])

  datatype Event =
    | CommitStore
    | SubmitCall(kind: Kind, commit: nat, nilClosure: bool)
    | CloseCall
    | Pop
    | Execute(result: Result)
    | ReplyOne
    | Exit

  /** What a closure of this kind can return in this state. */
  predicate CanReturn(k: Kind, r: Result, store: nat) {
    match r
    case Restarted(v) => k == Reconcile && v == store
    case Skipped => k == Reconcile
    case _ => true
  }

  /** One step; None when the step cannot happen. */
  function Step(s: State, e: Event): Option<State> {
    match e
    case CommitStore => Some(s.(store := s.store + 1))
    case SubmitCall(kind, commit, nilClosure) =>
      if commit > s.store then None
      else if nilClosure then Some(s.(calls := s.calls + 1, refused := s.refused[s.calls := NilClosure]))
      else if s.closed then Some(s.(calls := s.calls + 1, refused := s.refused[s.calls := QueueClosed]))
      else
        var item := Item(s.calls, kind, commit);
        Some(s.(calls := s.calls + 1, buffer := s.buffer + [item], accepted := s.accepted + [item]))
    case CloseCall => Some(s.(closed := true))
    case Pop =>
      if s.worker != Idle || s.buffer == [] then None
      else
        var n := GroupSize(s.buffer);
        Some(s.(worker := Holding(s.buffer[..n]), buffer := s.buffer[n..]))
    case Execute(r) =>
      if s.worker.Holding? && s.worker.group != [] && CanReturn(s.worker.group[0].kind, r, s.store)
      then Some(s.(worker := Replying(s.worker.group, r, 0)))
      else None
    case ReplyOne =>
      if !s.worker.Replying? || s.worker.sent >= |s.worker.group| then None
      else
        var Replying(g, r, k) := s.worker;
        var answers := s.answers + [Answer(g[k].id, r)];
        if k + 1 < |g| then Some(s.(worker := Replying(g, r, k + 1), answers := answers))
        else Some(s.(worker := Idle, answers := answers, groups := s.groups + [g], results := s.results + [r]))
    case Exit =>
      if s.worker == Idle && s.buffer == [] && s.closed then Some(s.(worker := Exited)) else None
  }

  function Run(s: State, es: seq<Event>): Option<State>
    decreases |es|
  {
    if es == [] then Some(s)
    else
      match Step(s, es[0])
      case None => None
      case Some(s') => Run(s', es[1..])
  }

  // ---------------------------------------------------------------- the invariant

  /** Items the worker has taken and not finished. */
  function InFlight(w: Worker): seq<Item> {
    match w
    case Holding(g) => g
    case Replying(g, _, _) => g
    case _ => []
  }

  function Answered(s: State): seq<Item> {
    Concat(s.groups) + (match s.worker case Replying(g, _, k) => if k <= |g| then g[..k] else [] case _ => [])
  }

  /** FIFO: finished groups, the group in hand and the buffer are the accepted items in order. */
  predicate Fifo(s: State) { Concat(s.groups) + InFlight(s.worker) + s.buffer == s.accepted }

  ghost predicate LawfulGroups(s: State) {
    && (forall g :: g in s.groups ==> LawfulGroup(g))
    && (s.worker.Holding? || s.worker.Replying? ==> LawfulGroup(s.worker.group))
    && (s.worker.Replying? ==> s.worker.sent < |s.worker.group|)
  }

  predicate PerItem(answers: seq<Answer>, items: seq<Item>) {
    |answers| == |items| && forall i :: 0 <= i < |answers| ==> answers[i].id == items[i].id
  }

  /** Answers go out in the order items were taken, one per item. */
  predicate OnePerItem(s: State) { PerItem(s.answers, Answered(s)) }

  predicate Numbered(s: State) {
    && (forall i, j :: 0 <= i < j < |s.accepted| ==> s.accepted[i].id < s.accepted[j].id)
    && (forall x :: x in s.accepted ==> x.id < s.calls && x.id !in s.refused && x.commit <= s.store)
    && (forall c :: c in s.refused ==> c < s.calls)
  }

  ghost predicate Covered(s: State) {
    forall c: nat :: c < s.calls && c !in s.refused ==> exists x :: x in s.accepted && x.id == c
  }

  /** A group that restarted the stack synced a snapshot no older than any of its commits. */
  predicate Fresh(g: seq<Item>, r: Result) {
    r.Restarted? ==> forall x :: x in g ==> x.kind == Reconcile && x.commit <= r.snapshot
  }

  predicate FreshItems(answers: seq<Answer>, items: seq<Item>) {
    forall i :: 0 <= i < |answers| && i < |items| ==> Fresh([items[i]], answers[i].result)
  }

  predicate FreshAnswers(s: State) {
    FreshItems(s.answers, Answered(s)) && (s.worker.Replying? ==> Fresh(s.worker.group, s.worker.result))
  }

  predicate ExitsDrained(s: State) { s.worker == Exited ==> s.closed && s.buffer == [] }

  ghost predicate Inv(s: State) {
    Fifo(s) && LawfulGroups(s) && OnePerItem(s) && Numbered(s) && Covered(s) && FreshAnswers(s) && ExitsDrained(s)
  }

  lemma SubmitKeeps(s: State, kind: Kind, commit: nat, nilClosure: bool)
    requires Inv(s) && Step(s, SubmitCall(kind, commit, nilClosure)).Some?
    ensures Inv(Step(s, SubmitCall(kind, commit, nilClosure)).value)
  {
    hide LawfulGroup, Concat, Fresh;
    var s' := Step(s, SubmitCall(kind, commit, nilClosure)).value;
    assert Answered(s') == Answered(s);
    forall c: nat | c < s'.calls && c !in s'.refused ensures exists x :: x in s'.accepted && x.id == c {
      if c == s.calls {
        assert s'.accepted[|s.accepted|].id == c;
      } else {
        var x :| x in s.accepted && x.id == c;
        assert x in s'.accepted;
      }
    }
    if |s'.accepted| > |s.accepted| {
      assert Fifo(s') by {
        var item := Item(s.calls, kind, commit);
        assert Concat(s.groups) + InFlight(s.worker) + (s.buffer + [item]) == Concat(s.groups) + InFlight(s.worker) + s.buffer + [item];
      }
    }
  }

  /** A step that accepts and answers nothing keeps the books. */
  lemma BooksKept(s: State, s': State)
    requires Inv(s) && s' == s.(buffer := s'.buffer, worker := s'.worker) && Answered(s') == Answered(s)
    requires s'.worker.Replying? ==> Fresh(s'.worker.group, s'.worker.result)
    ensures OnePerItem(s') && Numbered(s') && Covered(s') && FreshAnswers(s')
  {
    hide Concat, Fresh, LawfulGroup, Answered;
  }

  lemma Regroup(done: seq<Item>, buffer: seq<Item>, n: nat)
    requires n <= |buffer|
    ensures done + buffer[..n] + buffer[n..] == done + [] + buffer
  {
  }

  lemma PopShape(s: State)
    requires Fifo(s) && LawfulGroups(s) && Step(s, Pop).Some?
    ensures var s' := Step(s, Pop).value;
            && Fifo(s') && LawfulGroups(s') && Answered(s') == Answered(s) && s'.worker.Holding?
            && s' == s.(buffer := s'.buffer, worker := s'.worker)
  {
    GroupIsLawful(s.buffer);
    hide Concat, LawfulGroup, GroupSize;
    Regroup(Concat(s.groups), s.buffer, GroupSize(s.buffer));
  }

  lemma PopKeeps(s: State)
    requires Inv(s) && Step(s, Pop).Some?
    ensures Inv(Step(s, Pop).value)
  {
    hide Step, Answered, Fifo, LawfulGroups;
    PopShape(s);
    BooksKept(s, Step(s, Pop).value);
  }

  lemma ExecuteKeeps(s: State, r: Result)
    requires Inv(s) && Step(s, Execute(r)).Some?
    ensures Inv(Step(s, Execute(r)).value)
  {
    hide Concat;
    var s' := Step(s, Execute(r)).value;
    assert Answered(s') == Answered(s);
    var g := s.worker.group;
    forall x | x in g ensures x in s.accepted {
      assert x in Concat(s.groups) + g + s.buffer;
    }
    assert g[0] in g;
    assert Fresh(g, r);
  }

  lemma ReplyAnswers(s: State)
    requires Inv(s) && Step(s, ReplyOne).Some?
    ensures var s', w := Step(s, ReplyOne).value, s.worker;
            && Answered(s') == Answered(s) + [w.group[w.sent]] && Fifo(s') && LawfulGroups(s')
            && s'.answers == s.answers + [Answer(w.group[w.sent].id, w.result)]
            && s' == s.(worker := s'.worker, groups := s'.groups, results := s'.results, answers := s'.answers)
            && (s'.worker.Replying? ==> s'.worker.group == w.group && s'.worker.result == w.result)
            && s'.worker != Exited
  {
    hide OnePerItem, Numbered, Covered, FreshAnswers, LawfulGroup;
    var Replying(g, r, k) := s.worker;
    Handed(Concat(s.groups), g, k, s.buffer);
    ConcatAppend(s.groups, g);
    hide Concat;
  }

  lemma Handed(done: seq<Item>, g: seq<Item>, k: nat, buffer: seq<Item>)
    requires k < |g|
    ensures done + g[..k + 1] == done + g[..k] + [g[k]]
    ensures k + 1 == |g| ==> done + g + [] == done + g[..k] + [g[k]]
    ensures done + g + [] + buffer == done + g + buffer
  {
    assert g[..k + 1] == g[..k] + [g[k]];
  }

  lemma PerItemMore(answers: seq<Answer>, items: seq<Item>, r: Result, x: Item)
    requires PerItem(answers, items)
    ensures PerItem(answers + [Answer(x.id, r)], items + [x])
  {
  }

  lemma FreshMore(answers: seq<Answer>, items: seq<Item>, r: Result, x: Item)
    requires |answers| == |items| && FreshItems(answers, items) && Fresh([x], r)
    ensures FreshItems(answers + [Answer(x.id, r)], items + [x])
  {
    hide Fresh;
  }

  /** Handing out a result leaves the calls and the accepted items alone. */
  lemma Untouched(s: State, s': State)
    requires Numbered(s) && Covered(s) && s'.worker != Exited
    requires s' == s.(worker := s'.worker, groups := s'.groups, results := s'.results, answers := s'.answers)
    ensures Numbered(s') && Covered(s') && ExitsDrained(s')
  {
  }

  lemma ReplyKeeps(s: State)
    requires Inv(s) && Step(s, ReplyOne).Some?
    ensures Inv(Step(s, ReplyOne).value)
  {
    hide Concat, LawfulGroup, Answered, Fresh, Fifo, LawfulGroups, PerItem, FreshItems, Numbered, Covered, ExitsDrained;
    ReplyAnswers(s);
    var w, s' := s.worker, Step(s, ReplyOne).value;
    var x := w.group[w.sent];
    FreshOne(w.group, w.result, w.sent);
    PerItemMore(s.answers, Answered(s), w.result, x);
    assert |s.answers| == |Answered(s)| by { SameCount(s.answers, Answered(s)); }
    FreshMore(s.answers, Answered(s), w.result, x);
    hide Step;
    Untouched(s, s');
  }

  lemma SameCount(answers: seq<Answer>, items: seq<Item>)
    requires PerItem(answers, items)
    ensures |answers| == |items|
  {
  }

  lemma FreshOne(g: seq<Item>, r: Result, k: nat)
    requires k < |g| && Fresh(g, r)
    ensures Fresh([g[k]], r)
  {
    assert g[k] in g;
  }

  lemma StepKeeps(s: State, e: Event)
    requires Inv(s) && Step(s, e).Some?
    ensures Inv(Step(s, e).value)
  {
    match e
    case SubmitCall(kind, commit, nilClosure) => SubmitKeeps(s, kind, commit, nilClosure);
    case Pop => PopKeeps(s);
    case Execute(r) => ExecuteKeeps(s, r);
    case ReplyOne => ReplyKeeps(s);
    case _ =>
      hide Concat, LawfulGroup, Fresh;
      assert Answered(Step(s, e).value) == Answered(s);
  }

  lemma {:induction false} RunKeeps(s: State, es: seq<Event>)
    requires Inv(s) && Run(s, es).Some?
    ensures Inv(Run(s, es).value)
    decreases |es|
  {
    hide Inv, Step;
    if es != [] {
      StepKeeps(s, es[0]);
      RunKeeps(Step(s, es[0]).value, es[1..]);
    }
  }

  lemma InitHolds()
    ensures Inv(INIT)
  {
  }

  // ---------------------------------------------------------------- what it means for callers

  /** In every run: groups are lawful and in FIFO order; a call is refused or accepted, never
      both; no item is answered twice; and when the worker has exited all are answered. */
  lemma QueueCorrect(es: seq<Event>)
    requires Run(INIT, es).Some?
    ensures var s := Run(INIT, es).value;
            && Concat(s.groups) + InFlight(s.worker) + s.buffer == s.accepted
            && (forall g :: g in s.groups ==> LawfulGroup(g))
            && (forall c: nat :: c < s.calls ==> (c in s.refused <==> !exists x :: x in s.accepted && x.id == c))
            && (forall i, j :: 0 <= i < j < |s.answers| ==> s.answers[i].id < s.answers[j].id)
            && (forall i :: 0 <= i < |s.answers| ==> i < |s.accepted| && s.answers[i].id == s.accepted[i].id)
            && (s.worker == Exited ==> s.closed && Concat(s.groups) == s.accepted && |s.answers| == |s.accepted|)
  {
    InitHolds();
    RunKeeps(INIT, es);
    hide Run, Step, Concat, LawfulGroup, Fresh;
    var s := Run(INIT, es).value;
    AnsweredPrefix(s);
    assert forall c: nat :: c in s.refused ==> !exists x :: x in s.accepted && x.id == c;
  }

  lemma AnsweredPrefix(s: State)
    requires Fifo(s) && LawfulGroups(s)
    ensures Answered(s) <= s.accepted
    ensures s.worker == Exited && s.buffer == [] ==> Answered(s) == s.accepted
  {
    hide Concat, LawfulGroup;
    if s.worker.Replying? {
      var g, k := s.worker.group, s.worker.sent;
      assert g == g[..k] + g[k..];
      assert s.accepted == Concat(s.groups) + g[..k] + (g[k..] + s.buffer);
    } else {
      assert s.accepted == Concat(s.groups) + (InFlight(s.worker) + s.buffer);
    }
  }

  /** Nothing is accepted after Close, whatever happens next. */
  lemma {:induction false} ClosedForGood(s: State, es: seq<Event>)
    requires s.closed && Run(s, es).Some?
    ensures Run(s, es).value.closed && Run(s, es).value.accepted == s.accepted
    decreases |es|
  {
    if es != [] {
      ClosedForGood(Step(s, es[0]).value, es[1..]);
    }
  }

  /** Read your writes: an answer that reports a restart synced routes from a snapshot no
      older than the commit its own caller made, coalesced or not. */
  lemma ReadYourWrites(es: seq<Event>, i: nat)
    requires Run(INIT, es).Some? && i < |Run(INIT, es).value.answers|
    requires Run(INIT, es).value.answers[i].result.Restarted?
    ensures var s := Run(INIT, es).value;
            && i < |s.accepted| && s.accepted[i].id == s.answers[i].id
            && s.accepted[i].kind == Reconcile && s.accepted[i].commit <= s.answers[i].result.snapshot <= s.store
  {
    InitHolds();
    RunKeeps(INIT, es);
    SnapshotsPast(INIT, es);
    hide Run, Step, Concat, LawfulGroup;
    var s := Run(INIT, es).value;
    AnsweredPrefix(s);
    assert Fresh([Answered(s)[i]], s.answers[i].result);
    assert Answered(s)[i] in [Answered(s)[i]];
  }

  /** Snapshots come from the past of the store. */
  predicate PastSnapshots(s: State) {
    && (forall i :: 0 <= i < |s.answers| && s.answers[i].result.Restarted? ==> s.answers[i].result.snapshot <= s.store)
    && (s.worker.Replying? && s.worker.result.Restarted? ==> s.worker.result.snapshot <= s.store)
  }

  lemma {:induction false} SnapshotsPast(s: State, es: seq<Event>)
    requires PastSnapshots(s) && Run(s, es).Some?
    ensures PastSnapshots(Run(s, es).value)
    decreases |es|
  {
    if es != [] {
      SnapshotsPast(Step(s, es[0]).value, es[1..]);
    }
  }

  // ---------------------------------------------------------------- which calls are refused, and why

  /** Submit calls so far; each takes the count as its number. */
  function Calls(es: seq<Event>): nat {
    if es == [] then 0 else Calls(es[..|es| - 1]) + (if es[|es| - 1].SubmitCall? then 1 else 0)
  }

  lemma {:induction false} RunSnoc(s: State, es: seq<Event>, e: Event)
    requires Run(s, es + [e]).Some?
    ensures Run(s, es).Some? && Step(Run(s, es).value, e) == Run(s, es + [e])
    decreases |es|
  {
    hide Step;
    if es == [] {
      assert ([] + [e])[1..] == [];
    } else {
      assert (es + [e])[1..] == es[1..] + [e];
      RunSnoc(Step(s, es[0]).value, es[1..], e);
    }
  }

  /** What became of the call made by the k-th event. */
  ghost predicate Judged(s: State, es: seq<Event>, k: nat)
    requires k < |es| && es[k].SubmitCall?
  {
    var c, late := Calls(es[..k]), CloseCall in es[..k];
    && (c in s.refused <==> es[k].nilClosure || late)
    && (c in s.refused ==> s.refused[c] == if es[k].nilClosure then NilClosure else QueueClosed)
    && (c !in s.refused ==> Item(c, es[k].kind, es[k].commit) in s.accepted)
  }

  ghost predicate CallsJudged(s: State, es: seq<Event>) {
    && s.calls == Calls(es) && (s.closed <==> CloseCall in es) && (forall c :: c in s.refused ==> c < s.calls)
    && forall k: nat :: k < |es| && es[k].SubmitCall? ==> Calls(es[..k]) < s.calls && Judged(s, es, k)
  }

  /** What a step does to the calls. */
  lemma StepCalls(s: State, e: Event)
    requires Step(s, e).Some?
    ensures var s' := Step(s, e).value;
            && s'.calls == s.calls + (if e.SubmitCall? then 1 else 0) && (s'.closed <==> s.closed || e == CloseCall)
            && (forall x :: x in s.accepted ==> x in s'.accepted)
            && (forall c :: c != s.calls || !e.SubmitCall? ==> (c in s'.refused <==> c in s.refused))
            && (forall c :: c in s.refused && (c != s.calls || !e.SubmitCall?) ==> s'.refused[c] == s.refused[c])
            && (e.SubmitCall? && (e.nilClosure || s.closed) ==>
                  s.calls in s'.refused && s'.refused[s.calls] == if e.nilClosure then NilClosure else QueueClosed)
            && (e.SubmitCall? && !e.nilClosure && !s.closed ==> s'.refused == s.refused && Item(s.calls, e.kind, e.commit) in s'.accepted)
  {
    hide GroupSize, CanReturn;
  }

  lemma CallsSnoc(es: seq<Event>)
    requires es != []
    ensures Calls(es) == Calls(es[..|es| - 1]) + (if es[|es| - 1].SubmitCall? then 1 else 0)
  {
  }

  lemma StepJudges(s: State, es: seq<Event>)
    requires es != [] && CallsJudged(s, es[..|es| - 1]) && Step(s, es[|es| - 1]).Some?
    ensures CallsJudged(Step(s, es[|es| - 1]).value, es)
  {
    hide Step, Calls;
    var front, e := es[..|es| - 1], es[|es| - 1];
    assert es == front + [e];
    StepCalls(s, e);
    CallsSnoc(es);
    var s' := Step(s, e).value;
    forall k: nat | k < |es| && es[k].SubmitCall? ensures Calls(es[..k]) < s'.calls && Judged(s', es, k) {
      assert es[..k] == front[..k];
      if k < |front| {
        assert front[k] == es[k] && Judged(s, front, k);
      } else {
        assert front[..k] == front;
      }
    }
  }

  /** In every run, a call is refused exactly when it brings no closure or comes after a close,
      for that reason, and is accepted as it was made otherwise. */
  lemma RefusedExactly(es: seq<Event>, k: nat)
    requires Run(INIT, es).Some? && k < |es| && es[k].SubmitCall?
    ensures Judged(Run(INIT, es).value, es, k)
  {
    AllJudged(es);
  }

  lemma {:induction false} AllJudged(es: seq<Event>)
    requires Run(INIT, es).Some?
    ensures CallsJudged(Run(INIT, es).value, es)
  {
    if es != [] {
      hide Step, CallsJudged;
      var front, e := es[..|es| - 1], es[|es| - 1];
      assert es == front + [e];
      RunSnoc(INIT, front, e);
      AllJudged(front);
      StepJudges(Run(INIT, front).value, es);
    }
  }

  // ---------------------------------------------------------------- one result per group

  function AnswersFor(g: seq<Item>, r: Result): (a: seq<Answer>)
    ensures |a| == |g| && forall i :: 0 <= i < |g| ==> a[i] == Answer(g[i].id, r)
  {
    seq(|g|, i requires 0 <= i < |g| => Answer(g[i].id, r))
  }

  /** Each group's one result, handed to each of its submitters. */
  function Handout(groups: seq<seq<Item>>, results: seq<Result>): seq<Answer>
    requires |groups| == |results|
  {
    if groups == [] then []
    else
      var n := |groups| - 1;
      Handout(groups[..n], results[..n]) + AnswersFor(groups[n], results[n])
  }

  predicate Shared(s: State) {
    && |s.groups| == |s.results|
    && (s.worker.Replying? ==> s.worker.sent < |s.worker.group|)
    && s.answers == Handout(s.groups, s.results)
                    + (if s.worker.Replying? then AnswersFor(s.worker.group[..s.worker.sent], s.worker.result) else [])
  }

  lemma SharedReply(s: State)
    requires Shared(s) && Step(s, ReplyOne).Some?
    ensures Shared(Step(s, ReplyOne).value)
  {
    var Replying(g, r, k) := s.worker;
    assert AnswersFor(g[..k + 1], r) == AnswersFor(g[..k], r) + [Answer(g[k].id, r)];
    if k + 1 == |g| {
      assert g[..k + 1] == g;
      assert (s.groups + [g])[..|s.groups|] == s.groups && (s.results + [r])[..|s.results|] == s.results;
    }
  }

  /** In every run the answers are the groups' results, each handed to all of its group: the
      closure of a group ran once. */
  lemma {:induction false} CoalescedShareResult(s: State, es: seq<Event>)
    requires Shared(s) && Run(s, es).Some?
    requires s.worker.Holding? ==> s.worker.group != []
    ensures Shared(Run(s, es).value)
    decreases |es|
  {
    hide Handout;
    if es != [] {
      if es[0] == ReplyOne {
        SharedReply(s);
      }
      CoalescedShareResult(Step(s, es[0]).value, es[1..]);
    }
  }
}
