/**
 The public view of the latest merges: one document holding at most a hundred entries, newest first,
 in which each repository's entries are replaced as a whole.
 */
module MergeView {
  import opened Wrappers
  import opened Sorting
  import opened Text

  const MAX_ENTRIES := 100

  datatype Entry = Entry(repository: Name, pullRequest: int, mergedAt: int, links: Name)

  /** One repository's whole contribution. Opting out is a contribution of nothing. */
  datatype Batch = Batch(repository: Name, publicOptIn: bool, entries: seq<Entry>) {
    /** canonical is the outcome of the form check on the repository's name. */
    predicate Valid(canonical: bool) {
      && canonical && (!publicOptIn ==> entries == [])
      && forall e | e in entries :: !IsBlank(e.repository) && e.pullRequest > 0 && SameFold(e.repository, repository)
    }
  }

  /** Newest first, then by repository, then the higher pull request first. */
  predicate Before(x: Entry, y: Entry) {
    if x.mergedAt != y.mergedAt then x.mergedAt > y.mergedAt
    else if x.repository != y.repository then NameLess(x.repository, y.repository)
    else x.pullRequest > y.pullRequest
  }

  predicate SameKey(x: Entry, y: Entry) {
    x.mergedAt == y.mergedAt && x.repository == y.repository && x.pullRequest == y.pullRequest
  }

  predicate DistinctKeys(s: seq<Entry>) {
    forall i, j | 0 <= i < j < |s| :: !SameKey(s[i], s[j])
  }

  function Others(s: seq<Entry>, repository: Name): seq<Entry> {
    if s == [] then []
    else
      var init := Others(s[..|s| - 1], repository);
      if SameFold(s[|s| - 1].repository, repository) then init else init + [s[|s| - 1]]
  }

  function SortedEntries(s: seq<Entry>): seq<Entry> {
    if s == [] then [] else Insert(SortedEntries(s[..|s| - 1]), s[|s| - 1], Before)
  }

  function Top(s: seq<Entry>): (r: seq<Entry>) {
    if |s| > MAX_ENTRIES then s[..MAX_ENTRIES] else s
  }

  /** What a repository puts next to the entries of the others. */
  function Contribution(b: Batch): seq<Entry> {
    if b.publicOptIn then b.entries else []
  }

  function Merged(view: seq<Entry>, b: Batch): seq<Entry> {
    Top(SortedEntries(Others(view, b.repository) + Contribution(b)))
  }

  /** One call of the writer; the two outcomes are those of the form checks. */
  datatype Write = Write(deliveryIdOk: bool, canonical: bool, batch: Batch) {
    predicate Accepted() { deliveryIdOk && batch.Valid(canonical) }
  }

  /** A write that is refused changes nothing. */
  function After(view: seq<Entry>, w: Write): seq<Entry> {
    if w.Accepted() then Merged(view, w.batch) else view
  }

  class ProjectionWriter {
    var view: seq<Entry>

    constructor ()
      ensures view == []
    {
      view := [];
    }

    method WriteLatestMerges(w: Write) returns (failed: bool)
      modifies this
      ensures failed == !w.Accepted() && view == After(old(view), w)
    {
      if !w.deliveryIdOk || !w.batch.Valid(w.canonical) { return true; }
      var b := w.batch;
      var entries := [];
      for n := 0 to |view|
        invariant entries == Others(view[..n], b.repository)
      {
        assert view[..n + 1][..n] == view[..n];
        if !SameFold(view[n].repository, b.repository) { entries := entries + [view[n]]; }
      }
      assert view[..|view|] == view;
      entries := entries + (if b.publicOptIn then b.entries else []);
      entries := Sort(entries);
      if |entries| > MAX_ENTRIES { entries := entries[..MAX_ENTRIES]; }
      view := entries;
      failed := false;
    }

    static method Sort(entries: seq<Entry>) returns (sorted: seq<Entry>)
      ensures sorted == SortedEntries(entries)
    {
      sorted := [];
      for n := 0 to |entries|
        invariant sorted == SortedEntries(entries[..n])
      {
        assert entries[..n + 1][..n] == entries[..n];
        sorted := Insert(sorted, entries[n], Before);
      }
      assert entries[..|entries|] == entries;
    }
  }

  // ----- The order, the filter and the sort -----

  lemma BeforeIsTransitive()
    ensures IsTransitive(Before)
  {
    NamesAreOrdered();
    forall x, y, z | Before(x, y) && Before(y, z)
      ensures Before(x, z)
    {
    }
  }

  lemma BeforeOrSame(x: Entry, y: Entry)
    ensures Before(x, y) || Before(y, x) || SameKey(x, y)
    ensures Before(x, y) ==> !SameKey(x, y)
  {
    NamesAreOrdered();
  }

  lemma {:induction false} OthersHolds(s: seq<Entry>, repository: Name)
    ensures forall e :: e in Others(s, repository) <==> e in s && !SameFold(e.repository, repository)
  {
    if s != [] {
      OthersHolds(s[..|s| - 1], repository);
      assert s == s[..|s| - 1] + [s[|s| - 1]];
    }
  }

  lemma {:induction false} OthersKeepsKeys(s: seq<Entry>, repository: Name)
    requires DistinctKeys(s)
    ensures DistinctKeys(Others(s, repository))
  {
    if s != [] {
      OthersKeepsKeys(s[..|s| - 1], repository);
      OthersHolds(s[..|s| - 1], repository);
    }
  }

  lemma Comparable(init: seq<Entry>, last: Entry)
    requires DistinctKeys(init + [last])
    ensures forall y | y in init :: Before(last, y) || Before(y, last)
  {
    forall y | y in init
      ensures Before(last, y) || Before(y, last)
    {
      var i :| 0 <= i < |init| && init[i] == y;
      assert (init + [last])[i] == y && (init + [last])[|init|] == last;
      BeforeOrSame(last, y);
    }
  }

  /** The sort leaves a strictly descending list of the same entries, whatever order they came in. */
  lemma {:induction false} SortSorts(s: seq<Entry>)
    requires DistinctKeys(s)
    ensures IsSorted(SortedEntries(s), Before) && |SortedEntries(s)| == |s|
    ensures forall e :: e in SortedEntries(s) <==> e in s
  {
    if s != [] {
      var init, last := s[..|s| - 1], s[|s| - 1];
      assert s == init + [last];
      SortSorts(init);
      BeforeIsTransitive();
      Comparable(init, last);
      InsertSorts(SortedEntries(init), last, Before);
      InsertHolds(SortedEntries(init), last, Before);
    }
  }

  lemma SortedHasDistinctKeys(s: seq<Entry>)
    requires IsSorted(s, Before)
    ensures DistinctKeys(s)
  {
    forall i, j | 0 <= i < j < |s|
      ensures !SameKey(s[i], s[j])
    {
      BeforeOrSame(s[i], s[j]);
    }
  }

  /** The entries a write sorts have distinct keys: the repository's own differ, and the others' names do. */
  lemma PoolHasDistinctKeys(view: seq<Entry>, b: Batch)
    requires DistinctKeys(view) && b.Valid(true) && DistinctKeys(b.entries)
    ensures DistinctKeys(Others(view, b.repository) + Contribution(b))
  {
    var keep, own := Others(view, b.repository), Contribution(b);
    OthersHolds(view, b.repository);
    OthersKeepsKeys(view, b.repository);
    forall i, j | 0 <= i < |keep| && 0 <= j < |own|
      ensures !SameKey(keep[i], own[j])
    {
      assert keep[i] in keep && own[j] in own;
    }
  }

  /** A sorted list that holds the entries of another, and beyond them only later ones, begins with it. */
  lemma {:induction false} BeginsWith(s: seq<Entry>, first: seq<Entry>)
    requires IsSorted(s, Before) && IsSorted(first, Before)
    requires forall e | e in first :: e in s
    requires forall e, f | e in s && e !in first && f in first :: Before(f, e)
    ensures first <= s
    decreases |s|
  {
    BeforeIsTransitive();
    if s == [] {
      HasMembers(first);
    } else {
      var n := |s| - 1;
      assert s == s[..n] + [s[n]];
      if s[n] in first {
        forall e | e in s
          ensures e in first
        {
          if e !in first {
            EarlierIsLess(s, e, Before);
          }
        }
        SortedIsUnique(s, first, Before);
      } else {
        BeginsWith(s[..n], first);
      }
    }
  }

  // ----- What every write leaves -----

  ghost predicate Ok(view: seq<Entry>) {
    IsSorted(view, Before) && |view| <= MAX_ENTRIES
  }

  /** Sorted, no longer than a hundred, and of this repository nothing but its last batch. */
  lemma MergedIsOk(view: seq<Entry>, b: Batch)
    requires Ok(view) && b.Valid(true) && DistinctKeys(b.entries)
    ensures Ok(Merged(view, b))
    ensures forall e | e in Merged(view, b) && SameFold(e.repository, b.repository) :: b.publicOptIn && e in b.entries
    ensures forall e | e in Merged(view, b) && !SameFold(e.repository, b.repository) :: e in view
  {
    SortedHasDistinctKeys(view);
    PoolHasDistinctKeys(view, b);
    var pool := Others(view, b.repository) + Contribution(b);
    SortSorts(pool);
    OthersHolds(view, b.repository);
    forall e | e in Merged(view, b)
      ensures e in pool
    {
      assert e in SortedEntries(pool);
    }
  }

  /** An entry is left out only for a hundred that come before it. */
  lemma OnlyTheLastAreDropped(view: seq<Entry>, b: Batch, e: Entry)
    requires Ok(view) && b.Valid(true) && DistinctKeys(b.entries)
    requires (e in view && !SameFold(e.repository, b.repository)) || (b.publicOptIn && e in b.entries)
    ensures e in Merged(view, b) || (|Merged(view, b)| == MAX_ENTRIES
        && forall f | f in Merged(view, b) :: Before(f, e))
  {
    var pool := Others(view, b.repository) + Contribution(b);
    SortedHasDistinctKeys(view);
    PoolHasDistinctKeys(view, b);
    SortSorts(pool);
    OthersHolds(view, b.repository);
    assert e in pool;
    var sorted := SortedEntries(pool);
    var i :| 0 <= i < |sorted| && sorted[i] == e;
    if i >= MAX_ENTRIES {
      forall f | f in sorted[..MAX_ENTRIES]
        ensures Before(f, e)
      {
        var j :| 0 <= j < MAX_ENTRIES && sorted[j] == f;
      }
    } else if |sorted| > MAX_ENTRIES {
      assert sorted[..MAX_ENTRIES][i] == e;
    }
  }

  /** Applying a batch twice is applying it once, even when entries no longer fit. */
  lemma MergeTwice(view: seq<Entry>, b: Batch)
    requires Ok(view) && b.Valid(true) && DistinctKeys(b.entries)
    ensures Merged(Merged(view, b), b) == Merged(view, b)
  {
    var once := Merged(view, b);
    MergedIsOk(view, b);
    var pool := Others(once, b.repository) + Contribution(b);
    SortedHasDistinctKeys(once);
    PoolHasDistinctKeys(once, b);
    SortSorts(pool);
    OthersHolds(once, b.repository);
    forall e, f | e in SortedEntries(pool) && e !in once && f in once
      ensures Before(f, e)
    {
      assert e in pool && e in Contribution(b);
      OnlyTheLastAreDropped(view, b, e);
    }
    forall e | e in once
      ensures e in SortedEntries(pool)
    {
      assert e in pool;
    }
    BeginsWith(SortedEntries(pool), once);
    TopOfTwice(view, b, pool);
  }

  /** The second write has nothing to sort that the first did not keep, unless the first filled the view. */
  lemma TopOfTwice(view: seq<Entry>, b: Batch, pool: seq<Entry>)
    requires Ok(view) && b.Valid(true) && DistinctKeys(b.entries)
    requires pool == Others(Merged(view, b), b.repository) + Contribution(b)
    requires DistinctKeys(pool) && Merged(view, b) <= SortedEntries(pool)
    ensures Top(SortedEntries(pool)) == Merged(view, b)
  {
    var once, sorted := Merged(view, b), SortedEntries(pool);
    SortSorts(pool);
    MergedIsOk(view, b);
    OthersHolds(once, b.repository);
    if |once| < MAX_ENTRIES {
      forall e | e in sorted
        ensures e in once
      {
        assert e in pool;
        if e in Contribution(b) { OnlyTheLastAreDropped(view, b, e); }
      }
      BeforeIsTransitive();
      SortedIsUnique(sorted, once, Before);
    }
  }
}
