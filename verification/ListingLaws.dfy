/** What the walk does along any pages there are: too many, repeating, or missing; and its report by status. */
module ListingLaws {
  import opened Wrappers
  import opened Text
  import opened Listing

  /** Pages that lead from one to the next, from start on, none twice and at most fifty. */
  ghost predicate IsTrail(server: Server, start: Name, urls: seq<Name>) {
    && |urls| <= 50
    && (forall i | 0 <= i < |urls| :: IsReached(server, start, urls, i))
    && (forall i, j | 0 <= i < j < |urls| :: urls[i] != urls[j])
  }

  predicate IsReached(server: Server, start: Name, urls: seq<Name>, i: nat)
    requires i < |urls|
  {
    urls[i] != BLANK && urls[i] in server && urls[i] == NextOf(server, start, urls, i)
  }

  /** Where the first n pages lead. */
  function NextOf(server: Server, start: Name, urls: seq<Name>, n: nat): Name
    requires n <= |urls|
  {
    if n == 0 then start else if urls[n - 1] in server then server[urls[n - 1]].next else BLANK
  }

  /** One page of the walk. */
  lemma OnePage(server: Server, url: Name, seen: set<Name>, cutoff: int, all: seq<Delivery>, rest: seq<Delivery>,
      end: Result<seq<Delivery>, Error>)
    requires url != BLANK && |seen| < MAX_PAGES && url !in seen && url in server && all == server[url].items + rest
    requires Walk(server, server[url].next, seen + {url}, cutoff)
        == if |Recent(rest, cutoff)| < |rest| then Success(Recent(rest, cutoff)) else After(rest, end)
    ensures Walk(server, url, seen, cutoff)
        == if |Recent(all, cutoff)| < |all| then Success(Recent(all, cutoff)) else After(all, end)
  {
    var items := server[url].items;
    if |Recent(items, cutoff)| < |items| {
      RecentWithin(items, rest, cutoff);
    } else {
      RecentBeyond(items, rest, cutoff);
      AfterAppends(items, rest, end);
    }
  }

  /** The walk takes a trail's pages until one crosses the cutoff, and else goes on where the trail leads. */
  lemma {:induction false} WalkOfTrail(server: Server, start: Name, urls: seq<Name>, n: nat, cutoff: int)
    requires IsTrail(server, start, urls) && n <= |urls|
    ensures var all := AllItems(server, urls[n..]);
            Walk(server, NextOf(server, start, urls, n), Asked(urls, n), cutoff)
            == if |Recent(all, cutoff)| < |all| then Success(Recent(all, cutoff))
               else After(all, Walk(server, NextOf(server, start, urls, |urls|), Asked(urls, |urls|), cutoff))
    decreases |urls| - n
  {
    if n < |urls| {
      WalkOfTrail(server, start, urls, n + 1, cutoff);
      TrailStep(server, start, urls, n, cutoff, Walk(server, NextOf(server, start, urls, |urls|), Asked(urls, |urls|),
          cutoff));
    } else {
      NothingLeft(server, urls, cutoff, Walk(server, NextOf(server, start, urls, |urls|), Asked(urls, |urls|), cutoff));
    }
  }

  lemma NothingLeft(server: Server, urls: seq<Name>, cutoff: int, end: Result<seq<Delivery>, Error>)
    ensures AllItems(server, urls[|urls|..]) == [] && |Recent([], cutoff)| == 0 && After([], end) == end
  {
    if end.Success? { assert [] + end.value == end.value; }
  }

  lemma TrailStep(server: Server, start: Name, urls: seq<Name>, n: nat, cutoff: int, end: Result<seq<Delivery>, Error>)
    requires IsTrail(server, start, urls) && n < |urls|
    requires var rest := AllItems(server, urls[n + 1..]);
             Walk(server, NextOf(server, start, urls, n + 1), Asked(urls, n + 1), cutoff)
             == if |Recent(rest, cutoff)| < |rest| then Success(Recent(rest, cutoff)) else After(rest, end)
    ensures var all := AllItems(server, urls[n..]);
            Walk(server, NextOf(server, start, urls, n), Asked(urls, n), cutoff)
            == if |Recent(all, cutoff)| < |all| then Success(Recent(all, cutoff)) else After(all, end)
  {
    assert urls[n..][1..] == urls[n + 1..];
    AskedGrows(urls, n);
    AskedExtends(urls, n);
    assert IsReached(server, start, urls, n);
    assert urls[n] !in Asked(urls, n);
    OnePage(server, urls[n], Asked(urls, n), cutoff, AllItems(server, urls[n..]), AllItems(server, urls[n + 1..]), end);
  }

  /** A trail ends where there is no next page, where fifty were asked for, or where the next was asked for before. */
  ghost predicate Ends(server: Server, start: Name, urls: seq<Name>) {
    var next := NextOf(server, start, urls, |urls|);
    next == BLANK || |urls| == 50 || next in urls
  }

  /** A trail is cut where the next page is needed and its request fails. */
  ghost predicate IsCut(server: Server, start: Name, urls: seq<Name>) {
    !Ends(server, start, urls) && NextOf(server, start, urls, |urls|) !in server
  }

  /**
   Whatever pages there are: the listing fails exactly when a page it needs fails, which it does not once an
   attempt before the cutoff was seen; and else it reads the recent part of the pages it can get, which are
   fifty at most, and never one twice.
   */
  lemma WalkIsExact(server: Server, start: Name, urls: seq<Name>, cutoff: int)
    requires IsTrail(server, start, urls) && (Ends(server, start, urls) || IsCut(server, start, urls))
    ensures var walk, all := Walk(server, start, {}, cutoff), AllItems(server, urls);
            && (walk.Failure? <==> IsCut(server, start, urls) && forall x | x in all :: x.deliveredAt >= cutoff)
            && (walk.Success? ==> walk.value == Recent(all, cutoff))
  {
    var all, next := AllItems(server, urls), NextOf(server, start, urls, |urls|);
    assert urls[0..] == urls && Asked(urls, 0) == {};
    WalkOfTrail(server, start, urls, 0, cutoff);
    AskedGrows(urls, |urls|);
    assert next in Asked(urls, |urls|) <==> next in urls;
    assert all + [] == all;
    CrossesIff(all, cutoff);
  }

  lemma CrossesIff(all: seq<Delivery>, cutoff: int)
    ensures |Recent(all, cutoff)| == |all| <==> forall x | x in all :: x.deliveredAt >= cutoff
    ensures |Recent(all, cutoff)| == |all| ==> Recent(all, cutoff) == all
  {
    if |Recent(all, cutoff)| < |all| {
      assert all[|Recent(all, cutoff)|] in all;
    }
  }

  /** Every server has such a trail from every start, so the law above covers every listing there is. */
  lemma {:induction false} TrailExists(server: Server, start: Name, urls: seq<Name>) returns (trail: seq<Name>)
    requires IsTrail(server, start, urls)
    ensures IsTrail(server, start, trail) && (Ends(server, start, trail) || IsCut(server, start, trail))
    decreases 50 - |urls|
  {
    var next := NextOf(server, start, urls, |urls|);
    if Ends(server, start, urls) || IsCut(server, start, urls) {
      trail := urls;
    } else {
      var longer := urls + [next];
      TrailGoesOn(server, start, urls, next);
      trail := TrailExists(server, start, longer);
    }
  }

  lemma TrailGoesOn(server: Server, start: Name, urls: seq<Name>, next: Name)
    requires IsTrail(server, start, urls) && next == NextOf(server, start, urls, |urls|)
    requires !Ends(server, start, urls) && next in server
    ensures IsTrail(server, start, urls + [next])
  {
    var longer := urls + [next];
    forall i | 0 <= i < |longer|
      ensures IsReached(server, start, longer, i)
    {
      if i < |urls| { assert IsReached(server, start, urls, i); }
    }
  }

  // ----- The report, by status -----

  predicate Failed(x: Delivery) { x.status < 200 || x.status > 299 }

  /** Something other than a gateway answered. */
  predicate GotThrough(x: Delivery) { x.status != 0 && x.status != 502 && x.status != 504 && x.status != 530 }

  /**
   A report lists the latest attempts in the window whose status is not in the two hundreds, and the newest
   time of a latest attempt that something behind the gateway answered.
   */
  lemma ReportedByStatus(all: seq<Delivery>, cutoff: int, listing: Findings)
    requires Reports(all, cutoff, listing)
    ensures forall x :: x in listing.failed <==> IsLatest(all, cutoff, x) && Failed(x)
    ensures forall x | IsLatest(all, cutoff, x) && GotThrough(x) :: x.deliveredAt <= listing.newestAnsweredAt
    ensures listing.newestAnsweredAt == 0
        || exists x :: IsLatest(all, cutoff, x) && GotThrough(x) && x.deliveredAt == listing.newestAnsweredAt
  {
  }
}
