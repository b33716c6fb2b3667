/** Reconciliation: our lines against the provider's, reference by reference. */
module Reconcile {
  import opened Wrappers

  datatype Line = Line(ref: string, amount: int)

  datatype Cause = ProviderOnly | InternalOnly | AmountMismatch

  datatype Discrepancy = Discrepancy(ref: string, internal: Option<int>, provider: Option<int>, delta: int,
                                     cause: Cause)

  datatype Report = Report(compared: nat, matched: nat, discrepancies: seq<Discrepancy>, delta: int)

  type Totals = map<string, int>

  predicate Clean(r: Report) { |r.discrepancies| == 0 }

  // The order of references.

  predicate Less(a: string, b: string) {
    b != "" && (a == "" || a[0] < b[0] || (a[0] == b[0] && Less(a[1..], b[1..])))
  }

  lemma {:induction false} LessIsTotal(a: string, b: string)
    ensures Less(a, b) || a == b || Less(b, a)
  {
    if a != "" && b != "" && a[0] == b[0] {
      LessIsTotal(a[1..], b[1..]);
      assert a == [a[0]] + a[1..] && b == [b[0]] + b[1..];
    }
  }

  lemma {:induction false} LessIsTransitive(a: string, b: string, c: string)
    requires Less(a, b) && Less(b, c)
    ensures Less(a, c)
  {
    if a != "" && a[0] == b[0] && b[0] == c[0] {
      LessIsTransitive(a[1..], b[1..], c[1..]);
    }
  }

  lemma {:induction false} LessIsStrict(a: string)
    ensures !Less(a, a)
  {
    if a != "" {
      LessIsStrict(a[1..]);
    }
  }

  /** Strictly ascending, so without repetition. */
  ghost predicate Sorted(refs: seq<string>) {
    forall i, j :: 0 <= i < j < |refs| ==> Less(refs[i], refs[j])
  }

  function Insert(refs: seq<string>, ref: string): seq<string> {
    if refs == [] || Less(ref, refs[0]) then [ref] + refs else [refs[0]] + Insert(refs[1..], ref)
  }

  lemma {:induction false} InsertHas(refs: seq<string>, ref: string, r: string)
    ensures r in Insert(refs, ref) <==> r == ref || r in refs
  {
    if refs != [] && !Less(ref, refs[0]) {
      InsertHas(refs[1..], ref, r);
      assert refs == [refs[0]] + refs[1..];
    }
  }

  lemma PrependKeepsSorted(ref: string, refs: seq<string>)
    requires Sorted(refs) && forall r :: r in refs ==> Less(ref, r)
    ensures Sorted([ref] + refs)
  {
  }

  lemma {:induction false} InsertKeepsSorted(refs: seq<string>, ref: string)
    requires Sorted(refs) && ref !in refs
    ensures Sorted(Insert(refs, ref))
  {
    if refs == [] {
    } else if Less(ref, refs[0]) {
      forall r | r in refs ensures Less(ref, r) {
        if r != refs[0] {
          LessIsTransitive(ref, refs[0], r);
        }
      }
      PrependKeepsSorted(ref, refs);
    } else {
      LessIsTotal(ref, refs[0]);
      InsertKeepsSorted(refs[1..], ref);
      forall r | r in Insert(refs[1..], ref) ensures Less(refs[0], r) {
        InsertHas(refs[1..], ref, r);
      }
      PrependKeepsSorted(refs[0], Insert(refs[1..], ref));
    }
  }

  lemma HeadIsIn(xs: seq<string>)
    ensures xs == [] || xs[0] in xs
  {
  }

  /** The ascending list of a set of references is unique. */
  lemma {:induction false} SortedIsUnique(xs: seq<string>, ys: seq<string>)
    requires Sorted(xs) && Sorted(ys) && forall r :: r in xs <==> r in ys
    ensures xs == ys
  {
    HeadIsIn(xs);
    HeadIsIn(ys);
    if xs != [] {
      SameHead(xs, ys);
      assert xs == [xs[0]] + xs[1..] && ys == [ys[0]] + ys[1..];
      forall r ensures r in xs[1..] <==> r in ys[1..] {
        TailHas(xs, r);
        TailHas(ys, r);
      }
      SortedIsUnique(xs[1..], ys[1..]);
    }
  }

  lemma TailHas(xs: seq<string>, r: string)
    requires xs != [] && Sorted(xs)
    ensures r in xs[1..] <==> r in xs && r != xs[0]
  {
    LessIsStrict(xs[0]);
  }

  lemma SameHead(xs: seq<string>, ys: seq<string>)
    requires xs != [] && ys != [] && Sorted(xs) && Sorted(ys) && xs[0] in ys && ys[0] in xs
    ensures xs[0] == ys[0]
  {
    if xs[0] != ys[0] {
      LessIsTransitive(xs[0], ys[0], xs[0]);
      LessIsStrict(xs[0]);
    }
  }

  // Totals by reference.

  function Index(lines: seq<Line>): Totals {
    if lines == [] then map[]
    else
      var before, l := Index(lines[..|lines| - 1]), lines[|lines| - 1];
      before[l.ref := (if l.ref in before then before[l.ref] else 0) + l.amount]
  }

  function Of(m: Totals, ref: string): Option<int> { if ref in m then Some(m[ref]) else None }

  function Amount(m: Totals, ref: string): int { if ref in m then m[ref] else 0 }

  method BuildIndex(lines: seq<Line>) returns (out: Totals)
    ensures out == Index(lines)
  {
    out := map[];
    var i := 0;
    while i < |lines|
      invariant i <= |lines| && out == Index(lines[..i])
    {
      assert lines[..i + 1][..i] == lines[..i];
      var l := lines[i];
      out := out[l.ref := (if l.ref in out then out[l.ref] else 0) + l.amount];
      i := i + 1;
    }
    assert lines[..i] == lines;
  }

  // The comparison.

  /** What one reference contributes: nothing when both sides have the same amount. */
  function Finding(a: Totals, b: Totals, ref: string): Option<Discrepancy> {
    if Of(a, ref) == Of(b, ref) then None
    else
      Some(Discrepancy(ref, Of(a, ref), Of(b, ref), Amount(a, ref) - Amount(b, ref),
                       if ref !in a then ProviderOnly else if ref !in b then InternalOnly else AmountMismatch))
  }

  function Compared(a: Totals, b: Totals, refs: seq<string>): Report {
    if refs == [] then Report(0, 0, [], 0)
    else
      var before := Compared(a, b, refs[..|refs| - 1]);
      match Finding(a, b, refs[|refs| - 1])
      case None => Report(|refs|, before.matched + 1, before.discrepancies, before.delta)
      case Some(d) => Report(|refs|, before.matched, before.discrepancies + [d], before.delta + d.delta)
  }

  /** `refs` lists every reference of either side, in order. */
  ghost predicate Lists(refs: seq<string>, a: Totals, b: Totals) {
    Sorted(refs) && forall r :: r in refs <==> r in a || r in b
  }

  method SortRefs(refs: set<string>) returns (ordered: seq<string>)
    ensures Sorted(ordered) && forall r :: r in ordered <==> r in refs
  {
    ordered := [];
    var left := refs;
    while left != {}
      invariant left <= refs && Sorted(ordered) && forall r :: r in ordered <==> r in refs && r !in left
      decreases |left|
    {
      var ref :| ref in left;
      InsertKeepsSorted(ordered, ref);
      forall r ensures r in Insert(ordered, ref) <==> r == ref || r in ordered {
        InsertHas(ordered, ref, r);
      }
      ordered := Insert(ordered, ref);
      left := left - {ref};
    }
  }

  /** The four cases of the comparison: equal, both sides but different, only theirs, only ours. */
  method Classify(a: Totals, b: Totals, ref: string) returns (d: Option<Discrepancy>)
    requires ref in a || ref in b
    ensures d == Finding(a, b, ref)
  {
    if ref in a && ref in b && a[ref] == b[ref] {
      return None;
    } else if ref in a && ref in b {
      return Some(Discrepancy(ref, Some(a[ref]), Some(b[ref]), a[ref] - b[ref], AmountMismatch));
    } else if ref in b {
      return Some(Discrepancy(ref, None, Some(b[ref]), -b[ref], ProviderOnly));
    } else {
      return Some(Discrepancy(ref, Some(a[ref]), None, a[ref], InternalOnly));
    }
  }

  method Compare(internal: seq<Line>, provider: seq<Line>) returns (report: Report)
    ensures exists refs ::
              && Lists(refs, Index(internal), Index(provider))
              && report == Compared(Index(internal), Index(provider), refs)
  {
    var a := BuildIndex(internal);
    var b := BuildIndex(provider);
    var ordered := SortRefs(a.Keys + b.Keys);
    report := Report(|ordered|, 0, [], 0);
    var i := 0;
    while i < |ordered|
      invariant i <= |ordered|
      invariant report == Compared(a, b, ordered[..i]).(compared := |ordered|)
    {
      assert ordered[..i + 1][..i] == ordered[..i];
      assert ordered[i] in ordered;
      var d := Classify(a, b, ordered[i]);
      if d.None? {
        report := report.(matched := report.matched + 1);
      } else {
        report := report.(discrepancies := report.discrepancies + [d.value], delta := report.delta + d.value.delta);
      }
      i := i + 1;
    }
    assert ordered[..i] == ordered;
    assert Lists(ordered, a, b);
  }

  /** Two runs over the same inputs give the same report, whatever order the maps were walked in. */
  lemma ReportIsUnique(a: Totals, b: Totals, refs: seq<string>, other: seq<string>)
    requires Lists(refs, a, b) && Lists(other, a, b)
    ensures Compared(a, b, refs) == Compared(a, b, other)
  {
    SortedIsUnique(refs, other);
  }

  // What a report promises.

  function Total(lines: seq<Line>): int {
    if lines == [] then 0 else Total(lines[..|lines| - 1]) + lines[|lines| - 1].amount
  }

  function SumOver(m: Totals, refs: seq<string>): int {
    if refs == [] then 0 else SumOver(m, refs[..|refs| - 1]) + Amount(m, refs[|refs| - 1])
  }

  lemma {:induction false} SumOverUpdate(m: Totals, refs: seq<string>, ref: string, v: int)
    requires Sorted(refs)
    ensures SumOver(m[ref := v], refs) == SumOver(m, refs) + if ref in refs then v - Amount(m, ref) else 0
  {
    if refs != [] {
      var front, last := refs[..|refs| - 1], refs[|refs| - 1];
      SumOverUpdate(m, front, ref, v);
      if last == ref && ref in front {
        LessIsStrict(ref);
      }
      assert refs == front + [last];
    }
  }

  /** Adding up the totals by reference gives the total of the lines. */
  lemma {:induction false} IndexConserves(lines: seq<Line>, refs: seq<string>)
    requires Sorted(refs) && forall r :: r in Index(lines) ==> r in refs
    ensures SumOver(Index(lines), refs) == Total(lines)
  {
    if lines == [] {
      EmptySum(refs);
    } else {
      var before, l := lines[..|lines| - 1], lines[|lines| - 1];
      IndexConserves(before, refs);
      SumOverUpdate(Index(before), refs, l.ref, Amount(Index(before), l.ref) + l.amount);
    }
  }

  lemma {:induction false} EmptySum(refs: seq<string>)
    ensures SumOver(map[], refs) == 0
  {
    if refs != [] {
      EmptySum(refs[..|refs| - 1]);
    }
  }

  lemma {:induction false} ComparedSums(a: Totals, b: Totals, refs: seq<string>)
    ensures var r := Compared(a, b, refs);
            && r.delta == SumOver(a, refs) - SumOver(b, refs)
            && r.compared == |refs| == r.matched + |r.discrepancies|
  {
    if refs != [] {
      ComparedSums(a, b, refs[..|refs| - 1]);
    }
  }

  /** Nothing is lost: the delta is the difference of the two sides' totals, and every reference is matched or
      reported. */
  lemma ReportConserves(internal: seq<Line>, provider: seq<Line>, refs: seq<string>)
    requires Lists(refs, Index(internal), Index(provider))
    ensures var r := Compared(Index(internal), Index(provider), refs);
            && r.delta == Total(internal) - Total(provider)
            && r.compared == |refs| == r.matched + |r.discrepancies|
  {
    ComparedSums(Index(internal), Index(provider), refs);
    IndexConserves(internal, refs);
    IndexConserves(provider, refs);
  }

  lemma {:induction false} FindingsOnly(a: Totals, b: Totals, refs: seq<string>)
    ensures forall d :: d in Compared(a, b, refs).discrepancies ==> d.ref in refs && Finding(a, b, d.ref) == Some(d)
  {
    if refs != [] {
      FindingsOnly(a, b, refs[..|refs| - 1]);
    }
  }

  lemma {:induction false} FindingsAll(a: Totals, b: Totals, refs: seq<string>, ref: string)
    requires ref in refs && Of(a, ref) != Of(b, ref)
    ensures Finding(a, b, ref).value in Compared(a, b, refs).discrepancies
  {
    var front, last := refs[..|refs| - 1], refs[|refs| - 1];
    assert refs == front + [last];
    if last == ref {
      var ds := Compared(a, b, refs).discrepancies;
      assert ds[|ds| - 1] == Finding(a, b, ref).value;
    } else {
      FindingsAll(a, b, front, ref);
    }
  }

  /** References in the order they are reported. */
  function Reported(ds: seq<Discrepancy>): seq<string> {
    seq(|ds|, i requires 0 <= i < |ds| => ds[i].ref)
  }

  lemma AppendKeepsSorted(refs: seq<string>, ref: string)
    requires Sorted(refs) && forall i :: 0 <= i < |refs| ==> Less(refs[i], ref)
    ensures Sorted(refs + [ref])
  {
  }

  lemma {:induction false} ReportedInOrder(a: Totals, b: Totals, refs: seq<string>)
    requires Sorted(refs)
    ensures Sorted(Reported(Compared(a, b, refs).discrepancies))
  {
    if refs != [] {
      var front, last := refs[..|refs| - 1], refs[|refs| - 1];
      ReportedInOrder(a, b, front);
      FindingsOnly(a, b, front);
      var ds := Compared(a, b, front).discrepancies;
      forall i | 0 <= i < |ds| ensures Less(Reported(ds)[i], last) {
        assert ds[i] in ds;
        var k :| 0 <= k < |front| && front[k] == ds[i].ref;
        assert refs[k] == front[k];
      }
      AppendKeepsSorted(Reported(ds), last);
      var all := Compared(a, b, refs).discrepancies;
      if all != ds {
        assert Reported(all) == Reported(ds) + [last];
      }
    }
  }

  /** A reference is reported, once and with the right cause, exactly when the two sides differ on it. */
  lemma ReportClassifies(a: Totals, b: Totals, refs: seq<string>, ref: string)
    requires Lists(refs, a, b)
    ensures var ds := Compared(a, b, refs).discrepancies;
            && Sorted(Reported(ds))
            && (Of(a, ref) != Of(b, ref) <==> exists d :: d in ds && d.ref == ref)
            && forall d :: d in ds && d.ref == ref ==>
                 && d.internal == Of(a, ref) && d.provider == Of(b, ref) && d.delta == Amount(a, ref) - Amount(b, ref)
                 && (d.cause.ProviderOnly? <==> ref !in a) && (d.cause.InternalOnly? <==> ref !in b)
  {
    ReportedInOrder(a, b, refs);
    FindingsOnly(a, b, refs);
    if Of(a, ref) != Of(b, ref) {
      FindingsAll(a, b, refs, ref);
    }
  }

  /** A report is clean exactly when the two sides have the same total for every reference. */
  lemma CleanIffEqual(a: Totals, b: Totals, refs: seq<string>)
    requires Lists(refs, a, b)
    ensures Clean(Compared(a, b, refs)) <==> a == b
  {
    if Clean(Compared(a, b, refs)) {
      forall r ensures Of(a, r) == Of(b, r) {
        ReportClassifies(a, b, refs, r);
      }
      SameTotals(a, b);
    } else {
      var d := Compared(a, b, refs).discrepancies[0];
      ReportClassifies(a, b, refs, d.ref);
      assert d in Compared(a, b, refs).discrepancies;
    }
  }

  lemma SameTotals(a: Totals, b: Totals)
    requires forall r :: Of(a, r) == Of(b, r)
    ensures a == b
  {
    forall r ensures (r in a <==> r in b) && (r in a ==> a[r] == b[r]) {
      assert Of(a, r) == Of(b, r);
    }
  }

  // Swapping the sides.

  function Flipped(d: Discrepancy): Discrepancy {
    Discrepancy(d.ref, d.provider, d.internal, -d.delta,
                match d.cause
                case ProviderOnly => InternalOnly
                case InternalOnly => ProviderOnly
                case AmountMismatch => AmountMismatch)
  }

  function FlippedAll(ds: seq<Discrepancy>): seq<Discrepancy> {
    seq(|ds|, i requires 0 <= i < |ds| => Flipped(ds[i]))
  }

  /** Swapping the sides negates the delta and exchanges the one-sided causes; nothing else changes. */
  lemma {:induction false} SwapFlips(a: Totals, b: Totals, refs: seq<string>)
    ensures var r, s := Compared(a, b, refs), Compared(b, a, refs);
            s == Report(r.compared, r.matched, FlippedAll(r.discrepancies), -r.delta)
  {
    if refs != [] {
      SwapFlips(a, b, refs[..|refs| - 1]);
      var ref := refs[|refs| - 1];
      if Of(a, ref) != Of(b, ref) {
        assert Finding(b, a, ref) == Some(Flipped(Finding(a, b, ref).value));
      }
    }
  }

  // Reordering the lines.

  function Count(lines: seq<Line>, ref: string): nat {
    if lines == [] then 0 else Count(lines[1..], ref) + if lines[0].ref == ref then 1 else 0
  }

  function Summed(lines: seq<Line>, ref: string): int {
    if lines == [] then 0 else Summed(lines[1..], ref) + if lines[0].ref == ref then lines[0].amount else 0
  }

  lemma {:induction false} SplitSums(x: seq<Line>, y: seq<Line>, ref: string)
    ensures Summed(x + y, ref) == Summed(x, ref) + Summed(y, ref) && Count(x + y, ref) == Count(x, ref) + Count(y, ref)
  {
    if x == [] {
      assert x + y == y;
    } else {
      assert (x + y)[1..] == x[1..] + y;
      SplitSums(x[1..], y, ref);
    }
  }

  /** A reference's total is the sum of its lines, and it is there exactly when it has one. */
  lemma {:induction false} IndexSums(lines: seq<Line>, ref: string)
    ensures (ref in Index(lines) <==> Count(lines, ref) > 0) && Amount(Index(lines), ref) == Summed(lines, ref)
  {
    if lines != [] {
      var before, l := lines[..|lines| - 1], lines[|lines| - 1];
      IndexSums(before, ref);
      assert lines == before + [l];
      SplitSums(before, [l], ref);
      assert [l][1..] == [];
    }
  }

  function Dropped(y: seq<Line>, j: nat): seq<Line>
    requires j < |y|
  {
    y[..j] + y[j + 1..]
  }

  lemma DroppedSums(y: seq<Line>, j: nat, ref: string)
    requires j < |y|
    ensures Summed(y, ref) == Summed(Dropped(y, j), ref) + if y[j].ref == ref then y[j].amount else 0
    ensures Count(y, ref) == Count(Dropped(y, j), ref) + if y[j].ref == ref then 1 else 0
  {
    var tail := [y[j]] + y[j + 1..];
    assert y == y[..j] + tail;
    SplitSums(y[..j], y[j + 1..], ref);
    SplitSums(y[..j], tail, ref);
    assert tail[1..] == y[j + 1..];
  }

  lemma DroppedMultiset(y: seq<Line>, j: nat)
    requires j < |y|
    ensures multiset(Dropped(y, j)) == multiset(y) - multiset{y[j]}
  {
    assert y == y[..j] + ([y[j]] + y[j + 1..]);
  }

  lemma {:induction false} SumsIgnoreOrder(x: seq<Line>, y: seq<Line>, ref: string)
    requires multiset(x) == multiset(y)
    ensures Summed(x, ref) == Summed(y, ref) && Count(x, ref) == Count(y, ref)
    decreases |x|
  {
    if x == [] {
      assert |multiset(y)| == 0;
    } else {
      assert x[0] in multiset(y);
      var j :| 0 <= j < |y| && y[j] == x[0];
      DroppedMultiset(x, 0);
      DroppedMultiset(y, j);
      SumsIgnoreOrder(Dropped(x, 0), Dropped(y, j), ref);
      DroppedSums(x, 0, ref);
      DroppedSums(y, j, ref);
    }
  }

  /** The order of the lines on either side does not matter. */
  lemma OrderIsIgnored(internal: seq<Line>, provider: seq<Line>, internal': seq<Line>, provider': seq<Line>,
                       refs: seq<string>, refs': seq<string>)
    requires multiset(internal) == multiset(internal') && multiset(provider) == multiset(provider')
    requires Lists(refs, Index(internal), Index(provider)) && Lists(refs', Index(internal'), Index(provider'))
    ensures Compared(Index(internal), Index(provider), refs) == Compared(Index(internal'), Index(provider'), refs')
  {
    IndexIgnoresOrder(internal, internal');
    IndexIgnoresOrder(provider, provider');
    ReportIsUnique(Index(internal), Index(provider), refs, refs');
  }

  lemma IndexIgnoresOrder(x: seq<Line>, y: seq<Line>)
    requires multiset(x) == multiset(y)
    ensures Index(x) == Index(y)
  {
    forall r ensures Of(Index(x), r) == Of(Index(y), r) {
      SumsIgnoreOrder(x, y, r);
      IndexSums(x, r);
      IndexSums(y, r);
    }
    SameTotals(Index(x), Index(y));
  }
}
