/** What an accepted stream of pages looks like: sorted by sequence, and cut into plain pages and
    complete fill groups. */
module PageStreams {
  import opened FragmentKeys
  import opened Options
  import opened OrderedPages

  // ----- The sort -----

  ghost predicate Ascends<T>(s: seq<T>, rank: T -> int) {
    forall i, j :: 0 <= i < j < |s| ==> rank(s[i]) <= rank(s[j])
  }

  lemma {:induction false} InsertPermutes<T>(x: T, s: seq<T>, rank: T -> int)
    ensures multiset(Insert(x, s, rank)) == multiset(s) + multiset{x}
  {
    if s != [] && rank(x) < rank(s[|s| - 1]) {
      var n := |s| - 1;
      InsertPermutes(x, s[..n], rank);
      assert s == s[..n] + [s[n]];
    }
  }

  lemma {:induction false} InsertAscends<T>(x: T, s: seq<T>, rank: T -> int)
    requires Ascends(s, rank)
    ensures Ascends(Insert(x, s, rank), rank)
  {
    if s != [] && rank(x) < rank(s[|s| - 1]) {
      var n := |s| - 1;
      InsertAscends(x, s[..n], rank);
      InsertPermutes(x, s[..n], rank);
      var r := Insert(x, s[..n], rank);
      hide Insert;
      forall y | y in r ensures rank(y) <= rank(s[n]) {
        assert y in multiset(r);
        if y != x { assert y in s[..n]; }
      }
    }
  }

  /** The sort permutes its input into ascending order. */
  lemma {:induction false} SortedSorts<T>(s: seq<T>, rank: T -> int)
    ensures Ascends(Sorted(s, rank), rank) && multiset(Sorted(s, rank)) == multiset(s)
  {
    if s != [] {
      var n := |s| - 1;
      SortedSorts(s[..n], rank);
      InsertPermutes(s[n], Sorted(s[..n], rank), rank);
      InsertAscends(s[n], Sorted(s[..n], rank), rank);
      assert s == s[..n] + [s[n]];
    }
  }

  // ----- Fill groups -----

  predicate Plain(run: seq<Page>) { |run| == 1 && run[0].group.None? }

  /** Pages numbered from zero that continue one fill and end in its only final page. */
  ghost predicate FillGroup(run: seq<Page>) {
    && run != []
    && (forall i :: 0 <= i < |run| ==> run[i].group.Some?)
    && forall i :: 0 <= i < |run| ==>
         && SameFill(run[i].group.value, run[0].group.value) && run[i].group.value.sequence == i
         && (run[i].group.value.final <==> i == |run| - 1)
  }

  function Join(runs: seq<seq<Page>>): seq<Page> {
    if runs == [] then [] else Join(runs[..|runs| - 1]) + runs[|runs| - 1]
  }

  ghost predicate Split(pages: seq<Page>, runs: seq<seq<Page>>) {
    Join(runs) == pages && forall r :: 0 <= r < |runs| ==> Plain(runs[r]) || FillGroup(runs[r])
  }

  ghost predicate LocallyOk(pages: seq<Page>) {
    forall i :: 0 <= i < |pages| ==> ContinuationOk(PendingBefore(pages, i), pages[i].group)
  }

  /** Pages k and i belong to one group, and k leaves it open. */
  ghost predicate Together(pages: seq<Page>, k: nat, i: nat)
    requires k <= i < |pages|
  {
    && pages[k].group.Some? && pages[i].group.Some? && SameFill(pages[k].group.value, pages[i].group.value)
    && pages[k].group.value.sequence + (i - k) == pages[i].group.value.sequence
    && (k < i ==> !pages[k].group.value.final)
  }

  function StartOf(pages: seq<Page>, i: nat): int
    requires i < |pages|
  {
    if pages[i].group.None? then i else i - pages[i].group.value.sequence
  }

  /** Following a continuation back to its first page. */
  lemma {:induction false} GroupStart(pages: seq<Page>, i: nat)
    requires LocallyOk(pages) && i < |pages| && pages[i].group.Some?
    ensures 0 <= StartOf(pages, i) && PendingBefore(pages, StartOf(pages, i)) == None
    ensures forall k :: StartOf(pages, i) <= k <= i ==> Together(pages, k, i)
    decreases i
  {
    hide LocallyOk, PendingBefore, Together, StartOf;
    GroupOpens(pages, i);
    var start := StartOf(pages, i);
    if PendingBefore(pages, i).Some? {
      GroupStart(pages, i - 1);
      forall k | start <= k < i ensures Together(pages, k, i) {
        TogetherStep(pages, i, k);
      }
    }
  }

  lemma GroupOpens(pages: seq<Page>, i: nat)
    requires LocallyOk(pages) && i < |pages| && pages[i].group.Some?
    ensures Together(pages, i, i)
    ensures if PendingBefore(pages, i).None? then StartOf(pages, i) == i
            else i > 0 && pages[i - 1].group.Some? && StartOf(pages, i) == StartOf(pages, i - 1)
  {
    assert ContinuationOk(PendingBefore(pages, i), pages[i].group);
    hide LocallyOk;
  }

  lemma TogetherStep(pages: seq<Page>, i: nat, k: nat)
    requires LocallyOk(pages) && 0 < i < |pages| && PendingBefore(pages, i).Some?
    requires k < i && Together(pages, k, i - 1)
    ensures Together(pages, k, i)
  {
    assert ContinuationOk(PendingBefore(pages, i), pages[i].group);
    hide LocallyOk;
  }

  lemma PrefixContinues(pages: seq<Page>, n: nat)
    requires LocallyOk(pages) && n <= |pages| && PendingBefore(pages, n) == None
    ensures Continues(pages[..n])
  {
    hide ContinuationOk;
    forall i | 0 <= i < n ensures ContinuationOk(PendingBefore(pages[..n], i), pages[..n][i].group) {
      assert PendingBefore(pages[..n], i) == PendingBefore(pages, i);
    }
  }

  lemma {:induction false} SplitExists(pages: seq<Page>) returns (runs: seq<seq<Page>>)
    requires Continues(pages)
    ensures Split(pages, runs)
    decreases |pages|
  {
    if pages == [] {
      runs := [];
    } else {
      var start := StartOf(pages, |pages| - 1);
      LastRun(pages);
      PrefixContinues(pages, start);
      hide Continues, FillGroup, Plain;
      var before := SplitExists(pages[..start]);
      runs := before + [pages[start..]];
      assert runs[..|runs| - 1] == before;
      assert pages == pages[..start] + pages[start..];
    }
  }

  lemma LastRun(pages: seq<Page>)
    requires Continues(pages) && pages != []
    ensures var start := StartOf(pages, |pages| - 1);
            && 0 <= start < |pages| && PendingBefore(pages, start) == None
            && (Plain(pages[start..]) || FillGroup(pages[start..]))
  {
    var n := |pages| - 1;
    assert ContinuationOk(PendingBefore(pages, n), pages[n].group);
    if pages[n].group.Some? {
      GroupStart(pages, n);
      var start := StartOf(pages, n);
      var run := pages[start..];
      hide LocallyOk, ContinuationOk, PendingBefore;
      assert Together(pages, start, n);
      forall i | 0 <= i < |run|
        ensures run[i].group.Some? && SameFill(run[i].group.value, run[0].group.value)
        ensures run[i].group.value.sequence == i && (run[i].group.value.final <==> i == |run| - 1)
      {
        assert Together(pages, start + i, n);
      }
    }
  }

  lemma {:induction false} SplitContinues(pages: seq<Page>, runs: seq<seq<Page>>)
    requires Split(pages, runs)
    ensures Continues(pages)
    decreases |runs|
  {
    if runs != [] {
      var n := |runs| - 1;
      var before, run := Join(runs[..n]), runs[n];
      SplitContinues(before, runs[..n]);
      RunExtends(before, run);
    }
  }

  lemma RunExtends(before: seq<Page>, run: seq<Page>)
    requires Continues(before) && (Plain(run) || FillGroup(run))
    ensures Continues(before + run)
  {
    var pages := before + run;
    forall i | 0 <= i < |pages| ensures ContinuationOk(PendingBefore(pages, i), pages[i].group) {
      if i < |before| {
        assert PendingBefore(pages, i) == PendingBefore(before, i);
        hide ContinuationOk, Plain, FillGroup;
      } else {
        assert pages[i] == run[i - |before|];
        RunLinks(run, i - |before|);
        assert PendingBefore(pages, i) == PendingBefore(run, i - |before|);
        hide ContinuationOk, Plain, FillGroup;
      }
    }
    RunLinks(run, |run| - 1);
    hide ContinuationOk, Plain, FillGroup;
  }

  lemma RunLinks(run: seq<Page>, i: nat)
    requires (Plain(run) || FillGroup(run)) && i < |run|
    ensures ContinuationOk(PendingBefore(run, i), run[i].group)
    ensures PendingBefore(run, |run|) == None
  {
    if FillGroup(run) && i > 0 { assert !run[i - 1].group.value.final; }
  }

  /** The neighbour-by-neighbour check accepts exactly the sequences of plain pages and complete groups. */
  lemma SplitsIntoGroups(pages: seq<Page>)
    ensures Continues(pages) <==> exists runs :: Split(pages, runs)
  {
    if Continues(pages) { var runs := SplitExists(pages); }
    if runs :| Split(pages, runs) { SplitContinues(pages, runs); }
  }
}
