/** Destination validation: a one-pass scan against the label grammar of section 2.3.1 of
    RFC 1035 and section 2.1 of RFC 1123, lower case only, underscores allowed. */
module ValidateDst {
  import opened Text
  import opened Rules
  import opened Dedicated

  datatype Verdict =
    | Accepted
    | EmptyDst | NothingLeft | WildcardAddress | TooLong
    | HyphenStart | BadLabelEnd | LabelTooLong | Uppercase | BadChar
    | TrailingEmpty | TrailingHyphen | AllNumeric

  // ---------------------------------------------------------------- the grammar

  predicate LabelChar(c: char) { 'a' <= c <= 'z' || IsDigit(c) || c == '_' || c == '-' }

  predicate GoodLabel(l: string) {
    1 <= |l| <= 63 && (forall c :: c in l ==> LabelChar(c)) && l[0] != '-' && l[|l| - 1] != '-'
  }

  ghost predicate GoodLabels(ls: seq<string>) { forall l :: l in ls ==> GoodLabel(l) }

  predicate NamesSomething(n: string) { exists c :: c in n && !IsDigit(c) && c != '.' }

  /** A name that splits on dots into good labels and is not all digits and dots. */
  ghost predicate DomainName(n: string) {
    1 <= |n| <= 253 && GoodLabels(Split(n, '.')) && NamesSomething(n)
  }

  /** A destination: a domain, optionally with a leading (wildcard) and a trailing dot, or an
      address or range without a leading dot. */
  ghost predicate ValidDst(dst: string, cls: Classifier) {
    var n := NormalizeDomain(dst);
    n != "" && if cls(n) != Fqdn then !IsWildcard(dst) else DomainName(n)
  }

  // ---------------------------------------------------------------- splitting step by step

  lemma SplitAt(m: string, k: nat)
    requires k < |m| && m[k] == '.' && '.' !in m[..k]
    ensures Split(m, '.') == [m[..k]] + Split(m[k + 1..], '.')
  {
    assert m == m[..k] + ['.'] + m[k + 1..];
    IndexOfPrefix(m[..k], '.', m[k + 1..]);
  }

  lemma SplitLast(m: string)
    requires '.' !in m
    ensures Split(m, '.') == [m]
  {
    assert forall i :: 0 <= i < |m| ==> m[i] != '.';
  }

  /** The first label starts where the name starts. */
  lemma FirstLabel(m: string)
    requires m != [] && m[0] == '-'
    ensures !GoodLabels(Split(m, '.'))
  {
    var l := Split(m, '.')[0];
    assert l in Split(m, '.');
    assert IndexOf(m, '.') > 0;
    assert l[0] == '-';
  }

  lemma {:induction false} GoodChars(m: string)
    requires GoodLabels(Split(m, '.'))
    ensures forall c :: c in m ==> LabelChar(c) || c == '.'
    decreases |m|
  {
    var i := IndexOf(m, '.');
    if i == |m| {
      SplitLast(m);
      assert m in Split(m, '.');
    } else {
      SplitAt(m, i);
      var rest := Split(m[i + 1..], '.');
      assert m[..i] in Split(m, '.') && forall l :: l in rest ==> l in Split(m, '.');
      GoodChars(m[i + 1..]);
      assert m == m[..i] + ['.'] + m[i + 1..];
    }
  }

  // ---------------------------------------------------------------- the scan

  /** What the scan knows at position i of n, inside the label that begins at start. */
  ghost predicate Scanned(n: string, i: nat, start: nat, last: char, partlen: nat) {
    && start <= i <= |n| && partlen == i - start && '.' !in n[start..i]
    && (forall c :: c in n[start..i] ==> LabelChar(c))
    && (if start == i then last == '.' else n[start] != '-' && last == n[i - 1])
    && (GoodLabels(Split(n, '.')) <==> GoodLabels(Split(n[start..], '.')))
  }

  lemma LabelGrows(n: string, start: nat, i: nat)
    requires start <= i < |n| && '.' !in n[start..i] && LabelChar(n[i]) && forall c :: c in n[start..i] ==> LabelChar(c)
    ensures '.' !in n[start..i + 1] && forall c :: c in n[start..i + 1] ==> LabelChar(c)
    ensures start < i ==> n[i - 1] != '.'
  {
    assert n[start..i + 1] == n[start..i] + [n[i]];
    if start < i {
      assert n[start..i][i - 1 - start] == n[i - 1];
    }
  }

  lemma ScanChar(n: string, i: nat, start: nat, last: char, partlen: nat)
    requires Scanned(n, i, start, last, partlen) && i < |n| && LabelChar(n[i])
    ensures n[i] == '-' && last == '.' ==> !GoodLabels(Split(n, '.'))
    ensures !(n[i] == '-' && last == '.') ==> Scanned(n, i + 1, start, n[i], partlen + 1)
  {
    hide GoodLabels, Split;
    LabelGrows(n, start, i);
    hide LabelChar;
    if start == i && n[i] == '-' {
      assert n[start..][0] == '-';
      FirstLabel(n[start..]);
    }
  }

  lemma PartGood(n: string, i: nat, start: nat, last: char, partlen: nat)
    requires Scanned(n, i, start, last, partlen)
    ensures GoodLabel(n[start..i]) <==> last != '.' && last != '-' && partlen <= 63
  {
    hide GoodLabels, Split;
    var part := n[start..i];
    if start < i {
      assert part[0] == n[start] && part[|part| - 1] == n[i - 1];
      assert n[i - 1] in part;
    }
  }

  lemma ScanDot(n: string, i: nat, start: nat, last: char, partlen: nat)
    requires Scanned(n, i, start, last, partlen) && i < |n| && n[i] == '.'
    ensures last == '.' || last == '-' || partlen > 63 ==> !GoodLabels(Split(n, '.'))
    ensures !(last == '.' || last == '-' || partlen > 63) ==> Scanned(n, i + 1, i + 1, '.', 0)
  {
    hide GoodLabels, GoodLabel, Split, LabelChar;
    PartGood(n, i, start, last, partlen);
    SplitInside(n, start, i);
    GoodCons(n[start..i], Split(n[i + 1..], '.'));
  }

  /** The labels from start on: the one up to the dot at i, then those behind it. */
  lemma SplitInside(n: string, start: nat, i: nat)
    requires start <= i < |n| && n[i] == '.' && '.' !in n[start..i]
    ensures Split(n[start..], '.') == [n[start..i]] + Split(n[i + 1..], '.')
  {
    hide Split;
    var m, k := n[start..], i - start;
    assert m[..k] == n[start..i] && m[k] == '.' && m[k + 1..] == n[i + 1..];
    SplitAt(m, k);
  }

  lemma GoodCons(l: string, ls: seq<string>)
    ensures GoodLabels([l] + ls) <==> GoodLabel(l) && GoodLabels(ls)
  {
    hide GoodLabel;
    assert l in [l] + ls && forall x :: x in ls ==> x in [l] + ls;
  }

  lemma ScanBad(n: string, i: nat)
    requires i < |n| && !LabelChar(n[i]) && n[i] != '.'
    ensures !GoodLabels(Split(n, '.'))
  {
    hide GoodLabels, Split;
    assert n[i] in n;
    if GoodLabels(Split(n, '.')) {
      GoodChars(n);
    }
  }

  lemma ScanEnd(n: string, start: nat, last: char, partlen: nat)
    requires n != [] && Scanned(n, |n|, start, last, partlen)
    ensures GoodLabels(Split(n, '.')) <==> last != '.' && last != '-' && partlen <= 63
  {
    PartGood(n, |n|, start, last, partlen);
    assert n[start..] == n[start..|n|];
    SplitLast(n[start..]);
    hide GoodLabel, Split;
  }

  lemma NamesMore(n: string, i: nat)
    requires i < |n|
    ensures NamesSomething(n[..i + 1]) <==> NamesSomething(n[..i]) || (!IsDigit(n[i]) && n[i] != '.')
  {
    assert n[..i + 1] == n[..i] + [n[i]];
  }

  /** The loop over the characters of a name that is no address. */
  method ScanDomain(n: string) returns (v: Verdict)
    requires n != []
    ensures v == Accepted <==> GoodLabels(Split(n, '.')) && NamesSomething(n)
  {
    hide Scanned, GoodLabels, Split, NamesSomething;
    var last, nonNumeric, partlen: nat := '.', false, 0;
    ghost var start := 0;
    assert n[0..] == n && n[..0] == [];
    ScanStart(n);
    for i := 0 to |n|
      invariant Scanned(n, i, start, last, partlen)
      invariant nonNumeric <==> NamesSomething(n[..i])
    {
      var c := n[i];
      NamesMore(n, i);
      if LabelChar(c) {
        ScanChar(n, i, start, last, partlen);
        if c == '-' && last == '.' {
          return HyphenStart;
        }
        nonNumeric := nonNumeric || !IsDigit(c);
        partlen := partlen + 1;
      } else if c == '.' {
        ScanDot(n, i, start, last, partlen);
        if last == '.' || last == '-' {
          return BadLabelEnd;
        }
        if partlen > 63 {
          return LabelTooLong;
        }
        partlen, start := 0, i + 1;
      } else {
        ScanBad(n, i);
        return if 'A' <= c <= 'Z' then Uppercase else BadChar;
      }
      last := c;
    }
    assert n[..|n|] == n;
    ScanEnd(n, start, last, partlen);
    if last == '.' {
      return TrailingEmpty;
    }
    if last == '-' {
      return TrailingHyphen;
    }
    if partlen > 63 {
      return LabelTooLong;
    }
    return if nonNumeric then Accepted else AllNumeric;
  }

  lemma ScanStart(n: string)
    ensures Scanned(n, 0, 0, '.', 0)
    ensures !NamesSomething([])
  {
    assert n[0..] == n;
  }

  /** ValidateDst accepts exactly the valid destinations. */
  method Validate(dst: string, cls: Classifier) returns (v: Verdict)
    ensures v == Accepted <==> ValidDst(dst, cls)
  {
    if dst == "" {
      return EmptyDst;
    }
    var n := NormalizeDomain(dst);
    if n == "" {
      return NothingLeft;
    }
    if cls(n) != Fqdn {
      return if IsWildcard(dst) then WildcardAddress else Accepted;
    }
    if |n| > 253 {
      return TooLong;
    }
    v := ScanDomain(n);
  }

  /** What later stages rely on: a valid domain keeps only label characters and dots, so it
      has no '*', no upper case and no ':'. */
  lemma ValidDomainChars(dst: string, cls: Classifier)
    requires ValidDst(dst, cls) && cls(NormalizeDomain(dst)) == Fqdn
    ensures forall c :: c in dst ==> LabelChar(c) || c == '.'
    ensures Lower(dst) == dst
  {
    var n := NormalizeDomain(dst);
    GoodChars(n);
    forall i | 0 <= i < |dst| ensures LabelChar(dst[i]) || dst[i] == '.' {
      if dst[i] != '.' {
        assert dst[i] in n by {
          assert if IsWildcard(dst) then n[i - 1] == dst[i] else n[i] == dst[i];
        }
      }
    }
    assert forall i :: 0 <= i < |dst| ==> Lower(dst)[i] == dst[i];
  }
}
