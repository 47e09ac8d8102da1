/** What any number of writes leaves in the view, told by the fields of its entries. */
module MergeLaws {
  import opened Wrappers
  import opened Sorting
  import opened Text
  import opened MergeView

  /** The view after any number of writes, refused ones among them. */
  function Shown(writes: seq<Write>): seq<Entry> {
    if writes == [] then [] else After(Shown(writes[..|writes| - 1]), writes[|writes| - 1])
  }

  /** What the last accepted batch of a repository contributes. */
  function LastContribution(writes: seq<Write>, repository: Name): seq<Entry> {
    if writes == [] then []
    else
      var last := writes[|writes| - 1];
      if last.Accepted() && SameFold(repository, last.batch.repository) then Contribution(last.batch)
      else LastContribution(writes[..|writes| - 1], repository)
  }

  /** Of any repository the view holds only entries of the last batch of it that was accepted. */
  ghost predicate OnlyLatest(view: seq<Entry>, writes: seq<Write>) {
    forall e | e in view :: e in LastContribution(writes, e.repository)
  }

  predicate AllDistinct(writes: seq<Write>) {
    forall w | w in writes :: DistinctKeys(w.batch.entries)
  }

  lemma AfterIsLatest(writes: seq<Write>, view: seq<Entry>, w: Write)
    requires Ok(view) && DistinctKeys(w.batch.entries) && OnlyLatest(view, writes)
    ensures Ok(After(view, w)) && OnlyLatest(After(view, w), writes + [w])
  {
    assert (writes + [w])[..|writes|] == writes;
    if w.Accepted() { MergedIsOk(view, w.batch); }
  }

  /** Whatever is written, the view is sorted, bounded, and up to date for every repository it shows. */
  lemma {:induction false} ShownIsOk(writes: seq<Write>)
    requires AllDistinct(writes)
    ensures Ok(Shown(writes)) && OnlyLatest(Shown(writes), writes)
  {
    if writes != [] {
      var n := |writes| - 1;
      ShownIsOk(writes[..n]);
      AfterIsLatest(writes[..n], Shown(writes[..n]), writes[n]);
      assert writes == writes[..n] + [writes[n]];
    }
  }

  lemma BeforeByFields(x: Entry, y: Entry)
    requires Before(x, y)
    ensures x.mergedAt >= y.mergedAt
    ensures x.mergedAt == y.mergedAt && x.repository == y.repository ==> x.pullRequest > y.pullRequest
    ensures x.mergedAt == y.mergedAt && x.repository != y.repository ==>
              exists n: nat :: ComesFirst(x.repository.text, y.repository.text, n)
  {
    if x.mergedAt == y.mergedAt { TextOrder(x.repository.text, y.repository.text); }
  }

  /** Newest first; of two merged at one time by repository in byte order, and then the higher pull request first. */
  lemma NewestIsFirst(writes: seq<Write>, i: nat, j: nat)
    requires AllDistinct(writes) && i < j < |Shown(writes)|
    ensures var x, y := Shown(writes)[i], Shown(writes)[j];
            && x.mergedAt >= y.mergedAt
            && (x.mergedAt == y.mergedAt && x.repository == y.repository ==> x.pullRequest > y.pullRequest)
            && (x.mergedAt == y.mergedAt && x.repository != y.repository ==>
                  exists n: nat :: ComesFirst(x.repository.text, y.repository.text, n))
  {
    ShownIsOk(writes);
    BeforeByFields(Shown(writes)[i], Shown(writes)[j]);
  }

  /** What an accepted write had to choose from: the other repositories' entries, and the batch of an opted-in one. */
  predicate Offers(view: seq<Entry>, b: Batch, e: Entry) {
    (e in view && !SameFold(e.repository, b.repository)) || (b.publicOptIn && e in b.entries)
  }

  /** An entry an accepted write leaves out was merged no later than any of the hundred it keeps. */
  lemma LeftOutIsNoNewer(writes: seq<Write>, w: Write, e: Entry)
    requires AllDistinct(writes + [w]) && w.Accepted() && Offers(Shown(writes), w.batch, e)
    requires e !in Shown(writes + [w])
    ensures |Shown(writes + [w])| == 100
    ensures forall f | f in Shown(writes + [w]) :: f.mergedAt >= e.mergedAt
  {
    assert (writes + [w])[..|writes|] == writes && w in writes + [w];
    assert forall x | x in writes :: x in writes + [w];
    ShownIsOk(writes);
    OnlyTheLastAreDropped(Shown(writes), w.batch, e);
    forall f | f in Shown(writes + [w])
      ensures f.mergedAt >= e.mergedAt
    {
      BeforeByFields(f, e);
    }
  }

  /** A batch a writer may send: well formed throughout, and empty unless the repository opted in. */
  predicate Acceptable(w: Write) {
    && w.deliveryIdOk && w.canonical && (w.batch.entries != [] ==> w.batch.publicOptIn)
    && forall i | 0 <= i < |w.batch.entries| ::
         var e := w.batch.entries[i];
         !IsBlank(e.repository) && e.pullRequest >= 1 && SameFold(e.repository, w.batch.repository)
  }

  lemma AcceptedIffAcceptable(w: Write)
    ensures w.Accepted() <==> Acceptable(w)
  {
    assert forall e | e in w.batch.entries :: exists i :: 0 <= i < |w.batch.entries| && w.batch.entries[i] == e;
  }

  /** Every entry shown is well formed and came with some opted-in batch of its repository. */
  lemma {:induction false} ShownWasSent(writes: seq<Write>)
    requires AllDistinct(writes)
    ensures forall e | e in Shown(writes) ::
              !IsBlank(e.repository) && e.pullRequest >= 1
              && exists w :: w in writes && Acceptable(w) && w.batch.publicOptIn && e in w.batch.entries
  {
    if writes != [] {
      var n := |writes| - 1;
      ShownWasSent(writes[..n]);
      ShownIsOk(writes[..n]);
      AcceptedIffAcceptable(writes[n]);
      if writes[n].Accepted() { MergedIsOk(Shown(writes[..n]), writes[n].batch); }
      assert writes[n] in writes && forall w | w in writes[..n] :: w in writes;
    }
  }

  /** An acceptable batch of at most a hundred entries, all newer than everything shown, is shown whole. */
  lemma NewerIsShown(writes: seq<Write>, w: Write, e: Entry)
    requires AllDistinct(writes + [w]) && Acceptable(w) && e in w.batch.entries && |w.batch.entries| <= 100
    requires forall f, g | f in Shown(writes) && g in w.batch.entries :: f.mergedAt < g.mergedAt
    ensures e in Shown(writes + [w])
  {
    AcceptedIffAcceptable(w);
    if e !in Shown(writes + [w]) {
      LeftOutIsNoNewer(writes, w, e);
      KeptAreOfTheBatch(writes, w, e.mergedAt);
      ShownIsOk(writes + [w]);
      SortedHasDistinctKeys(Shown(writes + [w]));
      DistinctFit(Shown(writes + [w]), w.batch.entries, e);
    }
  }

  /** What is kept and newer than all that was shown came with the batch. */
  lemma KeptAreOfTheBatch(writes: seq<Write>, w: Write, time: int)
    requires AllDistinct(writes + [w]) && w.Accepted()
    requires (forall f | f in Shown(writes) :: f.mergedAt < time) && forall f | f in Shown(writes + [w]) :: f.mergedAt >= time
    ensures forall f | f in Shown(writes + [w]) :: f in w.batch.entries
  {
    assert (writes + [w])[..|writes|] == writes && w in writes + [w] && forall x | x in writes :: x in writes + [w];
    ShownIsOk(writes);
    MergedIsOk(Shown(writes), w.batch);
  }

  lemma {:induction false} DistinctFit(shown: seq<Entry>, own: seq<Entry>, e: Entry)
    requires DistinctKeys(shown) && (forall f | f in shown :: f in own) && e in own && e !in shown
    ensures |shown| < |own|
  {
    var i :| 0 <= i < |own| && own[i] == e;
    var rest := own[..i] + own[i + 1..];
    assert own == own[..i] + [e] + own[i + 1..];
    if shown != [] {
      var n := |shown| - 1;
      assert shown[n] in shown && shown[n] in rest;
      forall f | f in shown[..n]
        ensures f in rest && f in shown
      {
        assert f in own;
        var k :| 0 <= k < |own| && own[k] == f;
        assert if k < i then rest[k] == f else rest[k - 1] == f;
      }
      forall k | 0 <= k < n
        ensures shown[k] != shown[n]
      {
        assert !SameKey(shown[k], shown[n]);
      }
      DistinctFit(shown[..n], rest, shown[n]);
    }
  }

  /** A repository that opts out is shown no more, and nothing else changes. */
  lemma OptingOutHides(writes: seq<Write>, w: Write)
    requires AllDistinct(writes + [w]) && Acceptable(w) && !w.batch.publicOptIn
    ensures forall e :: e in Shown(writes + [w]) <==> e in Shown(writes) && !SameFold(e.repository, w.batch.repository)
  {
    assert (writes + [w])[..|writes|] == writes && w in writes + [w] && forall x | x in writes :: x in writes + [w];
    AcceptedIffAcceptable(w);
    ShownIsOk(writes);
    var view := Shown(writes);
    MergedIsOk(view, w.batch);
    forall e | e in view && !SameFold(e.repository, w.batch.repository)
      ensures e in Merged(view, w.batch)
    {
      OthersAreFewer(view, w.batch.repository);
      SortedHasDistinctKeys(view);
      PoolHasDistinctKeys(view, w.batch);
      SortSorts(Others(view, w.batch.repository) + Contribution(w.batch));
      OthersHolds(view, w.batch.repository);
    }
  }

  lemma {:induction false} OthersAreFewer(s: seq<Entry>, repository: Name)
    ensures |Others(s, repository)| <= |s|
  {
    if s != [] { OthersAreFewer(s[..|s| - 1], repository); }
  }
}
