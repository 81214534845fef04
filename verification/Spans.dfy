/** Sets of ports as lists of inclusive spans: merging the overlaps of one action and
    carving the denied ports out of the allowed ones.

    A span list means more than the ports it covers: touching spans such as 1-2 and 3-4
    stay apart.  Covers says which ports a list holds, Links which neighbouring ports share
    a span; an ascending list is determined by the two (AscendingUnique). */
module Spans {
  import opened Text
  import opened Rules

  ghost predicate Covers(spans: seq<Span>, p: int) {
    exists s :: s in spans && Holds(s, p)
  }

  ghost predicate Links(spans: seq<Span>, p: int) {
    exists s :: s in spans && Holds(s, p) && Holds(s, p + 1)
  }

  ghost predicate Proper(spans: seq<Span>) {
    forall s :: s in spans ==> s.lo <= s.hi
  }

  /** Proper spans in ascending order that share no port. */
  ghost predicate Ascending(spans: seq<Span>) {
    Proper(spans) && forall i, j :: 0 <= i < j < |spans| ==> spans[i].hi < spans[j].lo
  }

  ghost predicate SamePorts(a: seq<Span>, b: seq<Span>) {
    forall p :: Covers(a, p) <==> Covers(b, p)
  }

  ghost predicate SameLinks(a: seq<Span>, b: seq<Span>) {
    forall p :: Links(a, p) <==> Links(b, p)
  }

  lemma CoversCons(s: Span, rest: seq<Span>, p: int)
    ensures Covers([s] + rest, p) <==> Holds(s, p) || Covers(rest, p)
    ensures Links([s] + rest, p) <==> (Holds(s, p) && Holds(s, p + 1)) || Links(rest, p)
  {
    assert s in [s] + rest;
    assert forall t :: t in rest ==> t in [s] + rest;
  }

  lemma CoversAppend(a: seq<Span>, b: seq<Span>, p: int)
    ensures Covers(a + b, p) <==> Covers(a, p) || Covers(b, p)
    ensures Links(a + b, p) <==> Links(a, p) || Links(b, p)
  {
    assert forall t :: t in a + b <==> t in a || t in b;
  }

  /** Every span after the first lies wholly above it. */
  lemma AscendingTail(a: seq<Span>)
    requires Ascending(a) && a != []
    ensures Ascending(a[1..])
    ensures forall p :: Covers(a[1..], p) <==> Covers(a, p) && p > a[0].hi
    ensures forall p :: Links(a[1..], p) <==> Links(a, p) && p > a[0].hi
    ensures forall p :: Covers(a, p) ==> a[0].lo <= p
    ensures Covers(a, a[0].lo)
  {
    assert a == [a[0]] + a[1..];
    assert Holds(a[0], a[0].lo) && a[0] in a;
    forall p
      ensures Covers(a[1..], p) <==> Covers(a, p) && p > a[0].hi
      ensures Links(a[1..], p) <==> Links(a, p) && p > a[0].hi
      ensures Covers(a, p) ==> a[0].lo <= p
    {
      CoversCons(a[0], a[1..], p);
      assert forall s :: s in a[1..] ==> a[0].hi < s.lo;
    }
  }

  lemma EmptyIffPortless(a: seq<Span>)
    requires Proper(a)
    ensures a == [] <==> forall p :: !Covers(a, p)
  {
    if a != [] {
      assert a[0] in a && Holds(a[0], a[0].lo);
      assert Covers(a, a[0].lo);
    }
  }

  /** An ascending list is determined by the ports it covers and the neighbours it links. */
  lemma {:induction false} AscendingUnique(a: seq<Span>, b: seq<Span>)
    requires Ascending(a) && Ascending(b) && SamePorts(a, b) && SameLinks(a, b)
    ensures a == b
  {
    if a == [] || b == [] {
      EmptyIffPortless(a);
      EmptyIffPortless(b);
    } else {
      AscendingTail(a);
      AscendingTail(b);
      assert a[0].lo == b[0].lo;
      HeadEnds(a, b);
      HeadEnds(b, a);
      AscendingUnique(a[1..], b[1..]);
    }
  }

  lemma HeadEnds(a: seq<Span>, b: seq<Span>)
    requires Ascending(a) && Ascending(b) && SameLinks(a, b)
    requires a != [] && b != [] && a[0].lo == b[0].lo
    ensures b[0].hi <= a[0].hi
  {
    AscendingTail(a);
    var end, first := a[0].hi, b[0];
    assert first in b;
    assert Holds(first, end) && Holds(first, end + 1) ==> Links(b, end);
    assert a == [a[0]] + a[1..];
    CoversCons(a[0], a[1..], end);
    assert !Links(a, end);
  }

  // ---------------------------------------------------------------- sorting

  predicate Before(a: Span, b: Span) { a.lo < b.lo || (a.lo == b.lo && a.hi <= b.hi) }

  ghost predicate Sorted(spans: seq<Span>) {
    forall i, j :: 0 <= i < j < |spans| ==> Before(spans[i], spans[j])
  }

  function Insert(s: Span, spans: seq<Span>): seq<Span> {
    if spans == [] || Before(s, spans[0]) then [s] + spans
    else [spans[0]] + Insert(s, spans[1..])
  }

  function Sort(spans: seq<Span>): seq<Span> {
    if spans == [] then [] else Insert(spans[0], Sort(spans[1..]))
  }

  lemma {:induction false} InsertSorts(s: Span, spans: seq<Span>)
    requires Sorted(spans)
    ensures Sorted(Insert(s, spans))
    ensures forall t :: t in Insert(s, spans) <==> t == s || t in spans
    ensures |Insert(s, spans)| == |spans| + 1
  {
    if spans != [] && !Before(s, spans[0]) {
      InsertSorts(s, spans[1..]);
      var rest := Insert(s, spans[1..]);
      assert spans == [spans[0]] + spans[1..];
      forall j | 0 <= j < |rest| ensures Before(spans[0], rest[j]) {
        assert rest[j] in rest;
      }
    }
  }

  lemma {:induction false} SortSorts(spans: seq<Span>)
    ensures Sorted(Sort(spans))
    ensures forall t :: t in Sort(spans) <==> t in spans
    ensures |Sort(spans)| == |spans|
  {
    if spans != [] {
      SortSorts(spans[1..]);
      InsertSorts(spans[0], Sort(spans[1..]));
      assert spans == [spans[0]] + spans[1..];
    }
  }

  // ---------------------------------------------------------------- merging

  /** Folds sorted spans into the current one while they share a port with it. */
  function MergeFrom(cur: Span, rest: seq<Span>): seq<Span>
    decreases |rest|
  {
    if rest == [] then [cur]
    else if rest[0].lo <= cur.hi then
      MergeFrom(Span(cur.lo, if rest[0].hi > cur.hi then rest[0].hi else cur.hi), rest[1..])
    else [cur] + MergeFrom(rest[0], rest[1..])
  }

  function Merge(spans: seq<Span>): seq<Span> {
    if |spans| <= 1 then spans
    else
      SortSorts(spans);
      MergeFrom(Sort(spans)[0], Sort(spans)[1..])
  }

  lemma {:induction false} MergeFromMeaning(cur: Span, rest: seq<Span>)
    requires Proper([cur] + rest) && Sorted(rest)
    requires forall s :: s in rest ==> cur.lo <= s.lo
    ensures var m := MergeFrom(cur, rest);
            m != [] && m[0].lo == cur.lo && Ascending(m)
            && SamePorts(m, [cur] + rest) && SameLinks(m, [cur] + rest)
    decreases |rest|
  {
    hide Covers, Links;
    assert cur in [cur] + rest;
    if rest == [] {
      assert [cur] + rest == [cur];
    } else {
      var next, tail := rest[0], rest[1..];
      assert rest == [next] + tail;
      assert next in rest && next in [cur] + rest;
      assert forall s :: s in tail ==> s in rest && s in [cur] + rest && next.lo <= s.lo;
      if next.lo <= cur.hi {
        GrownSame(cur, next, tail);
        MergeFromMeaning(Grown(cur, next), tail);
      } else {
        MergeFromMeaning(next, tail);
        GapSame(cur, rest, MergeFrom(next, tail));
      }
    }
  }

  function Grown(cur: Span, next: Span): Span { Span(cur.lo, if next.hi > cur.hi then next.hi else cur.hi) }

  lemma GrownSame(cur: Span, next: Span, tail: seq<Span>)
    requires cur.lo <= next.lo <= cur.hi && next.lo <= next.hi
    ensures SamePorts([Grown(cur, next)] + tail, [cur] + ([next] + tail))
    ensures SameLinks([Grown(cur, next)] + tail, [cur] + ([next] + tail))
  {
    hide Covers, Links;
    forall p
      ensures Covers([Grown(cur, next)] + tail, p) <==> Covers([cur] + ([next] + tail), p)
      ensures Links([Grown(cur, next)] + tail, p) <==> Links([cur] + ([next] + tail), p)
    {
      CoversCons(Grown(cur, next), tail, p);
      CoversCons(cur, [next] + tail, p);
      CoversCons(next, tail, p);
    }
  }

  lemma GapSame(cur: Span, rest: seq<Span>, m: seq<Span>)
    requires SamePorts(m, rest) && SameLinks(m, rest) && Ascending(m) && m != [] && cur.lo <= cur.hi < m[0].lo
    ensures SamePorts([cur] + m, [cur] + rest) && SameLinks([cur] + m, [cur] + rest) && Ascending([cur] + m)
  {
    hide Covers, Links;
    forall p
      ensures Covers([cur] + m, p) <==> Covers([cur] + rest, p)
      ensures Links([cur] + m, p) <==> Links([cur] + rest, p)
    {
      CoversCons(cur, m, p);
      CoversCons(cur, rest, p);
    }
    hide SamePorts, SameLinks;
    forall t | t in m ensures cur.hi < t.lo {
      var i :| 0 <= i < |m| && m[i] == t;
      assert m[0] in m;
    }
    PieceAscends(cur, m);
  }

  /** Merging keeps exactly the ports and the links of its input. */
  lemma MergeMeaning(spans: seq<Span>)
    requires Proper(spans)
    ensures Ascending(Merge(spans)) && SamePorts(Merge(spans), spans) && SameLinks(Merge(spans), spans)
  {
    hide MergeFrom, Sort;
    if |spans| > 1 {
      SortSorts(spans);
      var sorted := Sort(spans);
      assert sorted == [sorted[0]] + sorted[1..];
      assert forall s :: s in sorted[1..] ==> s in sorted;
      MergeFromMeaning(sorted[0], sorted[1..]);
    }
  }

  lemma MergeFixed(spans: seq<Span>)
    requires Ascending(spans)
    ensures Merge(spans) == spans
  {
    MergeMeaning(spans);
    AscendingUnique(Merge(spans), spans);
  }

  /** The loop behind mergeOverlappingSpans. */
  method MergeOverlappingSpans(spans: seq<Span>) returns (merged: seq<Span>)
    ensures merged == Merge(spans)
  {
    if |spans| <= 1 {
      return spans;
    }
    SortSorts(spans);
    var sorted := Sort(spans);
    merged := [sorted[0]];
    for i := 1 to |sorted|
      invariant merged != []
      invariant merged[..|merged| - 1] + MergeFrom(merged[|merged| - 1], sorted[i..]) == Merge(spans)
    {
      var s, last := sorted[i], merged[|merged| - 1];
      assert sorted[i..][0] == s && sorted[i..][1..] == sorted[i + 1..];
      Assoc(merged[..|merged| - 1], [last], MergeFrom(s, sorted[i + 1..]));
      assert merged == merged[..|merged| - 1] + [last];
      if s.lo <= last.hi {
        if s.hi > last.hi {
          merged := merged[|merged| - 1 := Span(last.lo, s.hi)];
        }
      } else {
        merged := merged + [s];
      }
    }
  }

  // ---------------------------------------------------------------- carving

  /** What is left of lo..hi after removing the sorted deny spans, the running cursor at lo. */
  function CarveOne(lo: int, hi: int, deny: seq<Span>): seq<Span>
    decreases |deny|
  {
    if lo > hi then []
    else if deny == [] then [Span(lo, hi)]
    else
      var d := deny[0];
      if d.hi < lo || d.lo > hi then CarveOne(lo, hi, deny[1..])
      else Below(lo, d) + CarveOne(d.hi + 1, hi, deny[1..])
  }

  function CarveAll(allow: seq<Span>, deny: seq<Span>): seq<Span> {
    if allow == [] then []
    else CarveOne(allow[0].lo, allow[0].hi, deny) + CarveAll(allow[1..], deny)
  }

  function Subtract(allow: seq<Span>, deny: seq<Span>): seq<Span> {
    if deny == [] then allow else CarveAll(allow, Sort(deny))
  }

  lemma ProperTail(deny: seq<Span>)
    requires Proper(deny) && deny != []
    ensures deny[0].lo <= deny[0].hi && Proper(deny[1..])
  {
    assert deny[0] in deny;
  }

  lemma ShortAscends(s: Span)
    ensures Ascending([]) && (s.lo <= s.hi ==> Ascending([s]))
  {
  }

  lemma {:induction false} CarveOneBounds(lo: int, hi: int, deny: seq<Span>)
    requires Proper(deny)
    ensures forall s :: s in CarveOne(lo, hi, deny) ==> lo <= s.lo && s.hi <= hi
    decreases |deny|
  {
    hide Proper;
    if lo <= hi && deny != [] {
      var d := deny[0];
      ProperTail(deny);
      CarveOneBounds(if d.hi < lo || d.lo > hi then lo else d.hi + 1, hi, deny[1..]);
    }
  }

  lemma CarveOneUnfolds(lo: int, hi: int, deny: seq<Span>)
    ensures CarveOne(lo, hi, deny) ==
            if lo > hi then []
            else if deny == [] then [Span(lo, hi)]
            else if deny[0].hi < lo || deny[0].lo > hi then CarveOne(lo, hi, deny[1..])
            else Below(lo, deny[0]) + CarveOne(deny[0].hi + 1, hi, deny[1..])
  {
    hide Below;
  }

  lemma {:induction false} CarveOneAscends(lo: int, hi: int, deny: seq<Span>)
    requires Proper(deny)
    ensures Ascending(CarveOne(lo, hi, deny))
    decreases |deny|
  {
    hide Proper, Ascending, Below, Sorted, Covers, Links, Holds, CarveOne;
    ShortAscends(Span(lo, hi));
    CarveOneUnfolds(lo, hi, deny);
    if lo <= hi && deny != [] {
      var d := deny[0];
      ProperTail(deny);
      var next := if d.hi < lo || d.lo > hi then lo else d.hi + 1;
      CarveOneAscends(next, hi, deny[1..]);
      CarveOneBounds(next, hi, deny[1..]);
      if !(d.hi < lo || d.lo > hi) {
        CarveStep(lo, d, CarveOne(next, hi, deny[1..]));
      }
    }
  }

  lemma CarveStep(lo: int, d: Span, rest: seq<Span>)
    requires Ascending(rest) && d.lo <= d.hi && forall s :: s in rest ==> d.hi < s.lo
    ensures Ascending(Below(lo, d) + rest)
  {
    hide Ascending;
    if d.lo > lo {
      PieceAscends(Span(lo, d.lo - 1), rest);
    } else {
      assert Below(lo, d) + rest == rest;
    }
  }

  lemma PieceAscends(s: Span, rest: seq<Span>)
    requires Ascending(rest) && s.lo <= s.hi && forall t :: t in rest ==> s.hi < t.lo
    ensures Ascending([s] + rest)
  {
    assert forall i :: 0 <= i < |rest| ==> rest[i] in rest;
  }

  /** The piece of lo..hi below the first deny span that touches it. */
  function Below(lo: int, d: Span): seq<Span> {
    if d.lo > lo then [Span(lo, d.lo - 1)] else []
  }

  lemma BelowAt(lo: int, d: Span, p: int)
    ensures Covers(Below(lo, d), p) <==> lo <= p < d.lo
    ensures Links(Below(lo, d), p) <==> lo <= p < d.lo - 1
  {
    CoversCons(Span(lo, d.lo - 1), [], p);
    assert [Span(lo, d.lo - 1)] + [] == [Span(lo, d.lo - 1)];
  }

  lemma DenyAt(deny: seq<Span>, p: int)
    requires Sorted(deny) && Proper(deny) && deny != []
    ensures Covers(deny, p) <==> Holds(deny[0], p) || Covers(deny[1..], p)
    ensures Covers(deny, p) ==> deny[0].lo <= p
  {
    assert deny == [deny[0]] + deny[1..];
    CoversCons(deny[0], deny[1..], p);
  }

  lemma {:induction false} CarveOneAt(lo: int, hi: int, deny: seq<Span>, p: int)
    requires Sorted(deny) && Proper(deny)
    ensures Covers(CarveOne(lo, hi, deny), p) <==> lo <= p <= hi && !Covers(deny, p)
    ensures Links(CarveOne(lo, hi, deny), p) <==>
            lo <= p < hi && !Covers(deny, p) && !Covers(deny, p + 1)
    decreases |deny|
  {
    if lo <= hi {
      if deny == [] {
        CoversCons(Span(lo, hi), [], p);
      } else {
        var d, tail := deny[0], deny[1..];
        DenyAt(deny, p);
        DenyAt(deny, p + 1);
        if d.hi < lo || d.lo > hi {
          CarveOneAt(lo, hi, tail, p);
        } else {
          CarveOneAt(d.hi + 1, hi, tail, p);
          BelowAt(lo, d, p);
          CoversAppend(Below(lo, d), CarveOne(d.hi + 1, hi, tail), p);
        }
      }
    }
  }

  lemma {:induction false} CarveAllAscends(allow: seq<Span>, deny: seq<Span>)
    requires Ascending(allow) && Sorted(deny) && Proper(deny)
    ensures Ascending(CarveAll(allow, deny))
    ensures forall s :: s in CarveAll(allow, deny) ==> allow != [] && allow[0].lo <= s.lo
  {
    if allow != [] {
      AscendingTail(allow);
      CarveAllAscends(allow[1..], deny);
      CarveOneAscends(allow[0].lo, allow[0].hi, deny);
      CarveOneBounds(allow[0].lo, allow[0].hi, deny);
      AscendingAppend(CarveOne(allow[0].lo, allow[0].hi, deny), CarveAll(allow[1..], deny), allow[0].hi);
      assert allow[0] in allow;
    }
  }

  lemma {:induction false} CarveAllAt(allow: seq<Span>, deny: seq<Span>, p: int)
    requires Sorted(deny) && Proper(deny)
    ensures Covers(CarveAll(allow, deny), p) <==> Covers(allow, p) && !Covers(deny, p)
    ensures Links(CarveAll(allow, deny), p) <==>
            Links(allow, p) && !Covers(deny, p) && !Covers(deny, p + 1)
  {
    if allow != [] {
      var a, tail := allow[0], allow[1..];
      assert allow == [a] + tail;
      CarveAllAt(tail, deny, p);
      CarveOneAt(a.lo, a.hi, deny, p);
      CoversAppend(CarveOne(a.lo, a.hi, deny), CarveAll(tail, deny), p);
      CoversCons(a, tail, p);
    }
  }

  lemma AscendingAppend(a: seq<Span>, b: seq<Span>, mid: int)
    requires Ascending(a) && Ascending(b)
    requires forall s :: s in a ==> s.hi <= mid
    requires forall s :: s in b ==> mid < s.lo
    ensures Ascending(a + b)
  {
    forall i, j | 0 <= i < j < |a + b| ensures (a + b)[i].hi < (a + b)[j].lo {
      assert i < |a| ==> a[i] in a;
      assert j >= |a| ==> b[j - |a|] in b;
    }
  }

  /** Neighbours p and p + 1 still share a span after the deny spans are cut out. */
  ghost predicate StillLinked(allow: seq<Span>, deny: seq<Span>, p: int) {
    Links(allow, p) && !Covers(deny, p) && !Covers(deny, p + 1)
  }

  /** Carving removes exactly the denied ports and cuts exactly the links they touch. */
  lemma SubtractMeaning(allow: seq<Span>, deny: seq<Span>)
    requires Ascending(allow) && Proper(deny)
    ensures Ascending(Subtract(allow, deny))
    ensures forall p :: Covers(Subtract(allow, deny), p) <==> Covers(allow, p) && !Covers(deny, p)
    ensures forall p :: Links(Subtract(allow, deny), p) <==> StillLinked(allow, deny, p)
  {
    if deny != [] {
      var sorted := Sort(deny);
      SortSorts(deny);
      CarveAllAscends(allow, sorted);
      forall p
        ensures Covers(Subtract(allow, deny), p) <==> Covers(allow, p) && !Covers(deny, p)
        ensures Links(Subtract(allow, deny), p) <==> StillLinked(allow, deny, p)
      {
        CarveAllAt(allow, sorted, p);
        assert SamePorts(sorted, deny);
      }
    }
  }

  lemma SubtractFixed(allow: seq<Span>, deny: seq<Span>)
    requires Ascending(allow) && Proper(deny)
    requires forall p :: Covers(allow, p) ==> !Covers(deny, p)
    ensures Subtract(allow, deny) == allow
  {
    SubtractMeaning(allow, deny);
    forall p ensures Links(Subtract(allow, deny), p) <==> Links(allow, p) {
      assert Links(allow, p) ==> Covers(allow, p) && Covers(allow, p + 1);
    }
    AscendingUnique(Subtract(allow, deny), allow);
  }

  /** The inner loop of subtractSpans: one allow span against every sorted deny span. */
  method CarveSpan(a: Span, sorted: seq<Span>) returns (out: seq<Span>)
    requires Proper(sorted)
    ensures out == CarveOne(a.lo, a.hi, sorted)
  {
    out := [];
    var lo, j := a.lo, 0;
    while j < |sorted| && lo <= a.hi
      invariant 0 <= j <= |sorted|
      invariant out + CarveOne(lo, a.hi, sorted[j..]) == CarveOne(a.lo, a.hi, sorted)
    {
      var d := sorted[j];
      assert d in sorted;
      assert sorted[j..][0] == d && sorted[j..][1..] == sorted[j + 1..];
      if !(d.hi < lo || d.lo > a.hi) {
        if d.lo > lo {
          out := out + [Span(lo, d.lo - 1)];
        }
        if d.hi + 1 > lo {
          lo := d.hi + 1;
        }
      }
      j := j + 1;
    }
    if lo <= a.hi {
      assert sorted[j..] == [];
      out := out + [Span(lo, a.hi)];
    }
  }

  /** The outer loop of subtractSpans. */
  method SubtractSpans(allow: seq<Span>, deny: seq<Span>) returns (out: seq<Span>)
    requires Proper(deny)
    ensures out == Subtract(allow, deny)
  {
    if deny == [] {
      return allow;
    }
    var sorted := Sort(deny);
    SortSorts(deny);
    out := [];
    for i := 0 to |allow|
      invariant out + CarveAll(allow[i..], sorted) == CarveAll(allow, sorted)
    {
      assert allow[i..][0] == allow[i] && allow[i..][1..] == allow[i + 1..];
      var left := CarveSpan(allow[i], sorted);
      out := out + left;
    }
  }
}
