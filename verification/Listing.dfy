/**
 The walk over GitHub's paged list of webhook delivery attempts: newest first, one page at a time, stopping
 at the first attempt that is too old.
 */
module Listing {
  import opened Wrappers
  import opened Text

  const MAX_PAGES := 50
  const BAD_GATEWAY := 502
  const GATEWAY_TIMEOUT := 504
  const ORIGIN_UNREACHABLE := 530

  /** The time no clock reads, standing for "never". */
  const NEVER := 0

  /** One attempt at delivering the event a GUID stands for. */
  datatype Delivery = Delivery(id: int, guid: Name, deliveredAt: int, status: int) {
    predicate Succeeded() { 200 <= status < 300 }

    predicate Answered() {
      status != 0 && status != BAD_GATEWAY && status != GATEWAY_TIMEOUT && status != ORIGIN_UNREACHABLE
    }
  }

  datatype Page = Page(items: seq<Delivery>, next: Name)

  /** The answers the pages would give; a URL that is absent is one whose request fails. */
  type Server = map<Name, Page>

  datatype Findings = Findings(failed: seq<Delivery>, newestAnsweredAt: int, earliest: map<Name, int>)
  datatype Error = ListingFailed

  // ----- What the walk reads -----

  function Recent(items: seq<Delivery>, cutoff: int): (recent: seq<Delivery>)
    ensures recent <= items
    ensures forall item | item in recent :: item.deliveredAt >= cutoff
    ensures |recent| < |items| ==> items[|recent|].deliveredAt < cutoff
  {
    if items == [] || items[0].deliveredAt < cutoff then []
    else
      var rest := Recent(items[1..], cutoff);
      assert items == [items[0]] + items[1..];
      [items[0]] + rest
  }

  /** The attempts read from url on: whole pages until one crosses the cutoff, repeats, or is one too many. */
  function Walk(server: Server, url: Name, seen: set<Name>, cutoff: int): Result<seq<Delivery>, Error>
    decreases MAX_PAGES - |seen|
  {
    if url == BLANK || |seen| >= MAX_PAGES || url in seen then Success([])
    else if url !in server then Failure(ListingFailed)
    else
      var page := server[url];
      var recent := Recent(page.items, cutoff);
      if |recent| < |page.items| then Success(recent)
      else
        match Walk(server, page.next, seen + {url}, cutoff)
        case Failure(e) => Failure(e)
        case Success(rest) => Success(page.items + rest)
  }

  // ----- What the walk makes of what it reads -----

  function Guids(items: seq<Delivery>): set<Name> {
    set item | item in items && !IsBlank(item.guid) :: item.guid
  }

  /** The first attempt seen of each GUID. */
  function Firsts(items: seq<Delivery>): seq<Delivery> {
    if items == [] then []
    else
      var init, last := items[..|items| - 1], items[|items| - 1];
      Firsts(init) + (if IsBlank(last.guid) || last.guid in Guids(init) then [] else [last])
  }

  function Failures(items: seq<Delivery>): seq<Delivery> {
    if items == [] then []
    else
      var init, last := items[..|items| - 1], items[|items| - 1];
      Failures(init) + (if last.Succeeded() then [] else [last])
  }

  function NewestAnswered(items: seq<Delivery>): (newest: int)
    ensures newest == NEVER || exists item :: item in items && item.Answered() && item.deliveredAt == newest
    ensures forall item | item in items && item.Answered() :: item.deliveredAt <= newest
    ensures newest >= NEVER
  {
    if items == [] then NEVER
    else
      var init, last := items[..|items| - 1], items[|items| - 1];
      var newest := NewestAnswered(init);
      assert items == init + [last];
      if last.Answered() && last.deliveredAt > newest then last.deliveredAt else newest
  }

  /** The earliest time among the attempts of each GUID. */
  ghost predicate AreEarliest(items: seq<Delivery>, earliest: map<Name, int>) {
    && earliest.Keys == Guids(items)
    && (forall item | item in items && !IsBlank(item.guid) :: earliest[item.guid] <= item.deliveredAt)
    && (forall guid | guid in earliest ::
        exists item :: item in items && item.guid == guid && item.deliveredAt == earliest[guid])
  }

  ghost predicate Summarizes(items: seq<Delivery>, listing: Findings) {
    && listing.failed == Failures(Firsts(items))
    && listing.newestAnsweredAt == NewestAnswered(Firsts(items))
    && AreEarliest(items, listing.earliest)
  }

  // ----- The walk -----

  /** Take one attempt into account. */
  lemma EarliestExtends(items: seq<Delivery>, item: Delivery, was: map<Name, int>, now: map<Name, int>)
    requires AreEarliest(items, was)
    requires now == if IsBlank(item.guid) || (item.guid in was && was[item.guid] <= item.deliveredAt) then was
                    else was[item.guid := item.deliveredAt]
    ensures AreEarliest(items + [item], now)
  {
    var longer := items + [item];
    assert forall x :: x in longer <==> x in items || x == item;
    assert Guids(longer) == Guids(items) + (if IsBlank(item.guid) then {} else {item.guid});
    forall guid | guid in now
      ensures exists x :: x in longer && x.guid == guid && x.deliveredAt == now[guid]
    {
      if guid == item.guid && now != was {
        assert item in longer && item.guid == guid;
      } else {
        var x :| x in items && x.guid == guid && x.deliveredAt == was[guid];
        assert x in longer;
      }
    }
  }

  lemma {:induction false} RecentIsTake(items: seq<Delivery>, cutoff: int, n: nat)
    requires n <= |items| && forall i | 0 <= i < n :: items[i].deliveredAt >= cutoff
    requires n < |items| ==> items[n].deliveredAt < cutoff
    ensures Recent(items, cutoff) == items[..n] && |Recent(items, cutoff)| == n
  {
    if n > 0 {
      RecentIsTake(items[1..], cutoff, n - 1);
      assert items[..n] == [items[0]] + items[1..][..n - 1];
    }
  }

  lemma OneMoreRecent(before: seq<Delivery>, page: seq<Delivery>, cutoff: int, n: nat)
    requires n <= |Recent(page, cutoff)| && n < |page| && page[n].deliveredAt >= cutoff
    ensures n < |Recent(page, cutoff)|
    ensures before + Recent(page, cutoff)[..n + 1] == before + Recent(page, cutoff)[..n] + [page[n]]
  {
    var recent := Recent(page, cutoff);
    assert recent[..n + 1] == recent[..n] + [page[n]];
  }

  lemma NoMoreRecent(page: seq<Delivery>, cutoff: int, n: nat)
    requires n <= |Recent(page, cutoff)| && (n < |page| ==> page[n].deliveredAt < cutoff)
    ensures n == |Recent(page, cutoff)| && Recent(page, cutoff)[..n] == Recent(page, cutoff)
  {
    if n < |Recent(page, cutoff)| {
      RecentIsNew(page, cutoff, n);
    }
  }

  lemma RecentIsNew(page: seq<Delivery>, cutoff: int, n: nat)
    requires n < |Recent(page, cutoff)|
    ensures page[n].deliveredAt >= cutoff
  {
    assert Recent(page, cutoff)[n] in Recent(page, cutoff);
  }

  lemma TakenExtends(items: seq<Delivery>, item: Delivery)
    ensures Guids(items + [item]) == Guids(items) + (if IsBlank(item.guid) then {} else {item.guid})
    ensures Firsts(items + [item])
            == Firsts(items) + (if IsBlank(item.guid) || item.guid in Guids(items) then [] else [item])
  {
    var longer := items + [item];
    assert longer[..|longer| - 1] == items;
    assert forall x :: x in longer <==> x in items || x == item;
  }

  class Reader {
    /** The attempts taken so far, and what is remembered of them. */
    ghost var taken: seq<Delivery>
    var seen: set<Name>
    var latest: seq<Delivery>
    var earliest: map<Name, int>

    constructor ()
      ensures Valid() && taken == []
    {
      taken, seen, latest, earliest := [], {}, [], map[];
    }

    ghost predicate Valid()
      reads this
    {
      seen == Guids(taken) && latest == Firsts(taken) && AreEarliest(taken, earliest)
    }

    method Take(item: Delivery)
      requires Valid()
      modifies this
      ensures Valid() && taken == old(taken) + [item]
    {
      ghost var was := earliest;
      if !IsBlank(item.guid) {
        if item.guid !in earliest || item.deliveredAt < earliest[item.guid] {
          earliest := earliest[item.guid := item.deliveredAt];
        }
        if item.guid !in seen {
          seen := seen + {item.guid};
          latest := latest + [item];
        }
      }
      EarliestExtends(taken, item, was, earliest);
      TakenExtends(taken, item);
      assert seen == Guids(taken + [item]) && latest == Firsts(taken + [item]);
      taken := taken + [item];
    }

    /** Take a page up to its first attempt before the cutoff. */
    method TakePage(page: seq<Delivery>, cutoff: int) returns (stop: bool)
      requires Valid()
      modifies this
      ensures Valid() && taken == old(taken) + Recent(page, cutoff)
      ensures stop == (|Recent(page, cutoff)| < |page|)
    {
      ghost var before, recent := taken, Recent(page, cutoff);
      var n := 0;
      while n < |page| && page[n].deliveredAt >= cutoff
        invariant n <= |recent| && Valid() && taken == before + recent[..n]
      {
        OneMoreRecent(before, page, cutoff, n);
        Take(page[n]);
        n := n + 1;
      }
      NoMoreRecent(page, cutoff, n);
      stop := n < |page|;
    }

    /** Follow the pages from start. */
    method ReadPages(server: Server, start: Name, cutoff: int) returns (r: Result<(), Error>)
      requires Valid() && taken == []
      modifies this
      ensures Valid()
      ensures match Walk(server, start, {}, cutoff)
              case Failure(e) => r == Failure(e)
              case Success(items) => r == Success(()) && taken == items
    {
      var url, seenUrls, stop := start, {}, false;
      ghost var whole := Walk(server, start, {}, cutoff);
      assert whole.Success? ==> taken + whole.value == whole.value;
      while !stop && url != BLANK && |seenUrls| < MAX_PAGES && url !in seenUrls
        invariant Valid()
        invariant whole == if stop then Success(taken) else After(taken, Walk(server, url, seenUrls, cutoff))
        decreases !stop, MAX_PAGES - |seenUrls|
      {
        if url !in server { return Failure(ListingFailed); }
        var page := server[url];
        WalkOnePage(taken, server, url, seenUrls, cutoff);
        stop := TakePage(page.items, cutoff);
        seenUrls, url := seenUrls + {url}, page.next;
      }
      assert taken + [] == taken;
      r := Success(());
    }

    method Summarize() returns (listing: Findings)
      requires Valid()
      ensures Summarizes(taken, listing)
    {
      var failed, newest := [], NEVER;
      for n := 0 to |latest|
        invariant failed == Failures(latest[..n]) && newest == NewestAnswered(latest[..n])
      {
        var item := latest[n];
        assert latest[..n + 1][..n] == latest[..n];
        if item.Answered() && item.deliveredAt > newest { newest := item.deliveredAt; }
        if !item.Succeeded() { failed := failed + [item]; }
      }
      assert latest[..|latest|] == latest;
      listing := Findings(failed, newest, earliest);
    }
  }

  function After(items: seq<Delivery>, r: Result<seq<Delivery>, Error>): Result<seq<Delivery>, Error> {
    match r
    case Failure(e) => Failure(e)
    case Success(rest) => Success(items + rest)
  }

  lemma WalkOnePage(taken: seq<Delivery>, server: Server, url: Name, seen: set<Name>, cutoff: int)
    requires url != BLANK && |seen| < MAX_PAGES && url !in seen && url in server
    ensures var page := server[url];
            var recent := Recent(page.items, cutoff);
            After(taken, Walk(server, url, seen, cutoff)) ==
            if |recent| < |page.items| then Success(taken + recent)
            else After(taken + recent, Walk(server, page.next, seen + {url}, cutoff))
  {
    var page := server[url];
    var recent := Recent(page.items, cutoff);
    if |recent| == |page.items| {
      assert recent == page.items;
      var rest := Walk(server, page.next, seen + {url}, cutoff);
      AfterAppends(taken, page.items, rest);
      assert Walk(server, url, seen, cutoff) == After(page.items, rest);
    }
  }

  lemma AfterAppends(a: seq<Delivery>, b: seq<Delivery>, r: Result<seq<Delivery>, Error>)
    ensures After(a, After(b, r)) == After(a + b, r)
  {
    if r.Success? {
      assert a + (b + r.value) == a + b + r.value;
    }
  }

  method ListRecentDeliveries(server: Server, start: Name, cutoff: int) returns (r: Result<Findings, Error>)
    ensures match Walk(server, start, {}, cutoff)
            case Failure(e) => r == Failure(e)
            case Success(items) => r.Success? && Summarizes(items, r.value)
  {
    var reader := new Reader();
    var read := reader.ReadPages(server, start, cutoff);
    if read.Failure? { return Failure(read.error); }
    var listing := reader.Summarize();
    r := Success(listing);
  }

  // ----- What the walk finds in a newest-first list -----

  ghost predicate NewestFirst(items: seq<Delivery>) {
    forall i, j | 0 <= i <= j < |items| :: items[i].deliveredAt >= items[j].deliveredAt
  }

  /** The i-th page is there to be asked for, and leads to the one after it, or nowhere if it is the last. */
  predicate Leads(server: Server, urls: seq<Name>, i: nat)
    requires i < |urls|
  {
    urls[i] != BLANK && urls[i] in server && server[urls[i]].next == if i + 1 < |urls| then urls[i + 1] else BLANK
  }

  /** Pages that lead from one to the next and then end, within the page limit and never repeating. */
  ghost predicate IsChain(server: Server, urls: seq<Name>) {
    && |urls| <= MAX_PAGES
    && (forall i | 0 <= i < |urls| :: Leads(server, urls, i))
    && (forall i, j | 0 <= i < j < |urls| :: urls[i] != urls[j])
  }

  function AllItems(server: Server, urls: seq<Name>): seq<Delivery> {
    if urls == [] then []
    else (if urls[0] in server then server[urls[0]].items else []) + AllItems(server, urls[1..])
  }

  lemma RecentWithin(a: seq<Delivery>, b: seq<Delivery>, cutoff: int)
    requires |Recent(a, cutoff)| < |a|
    ensures Recent(a + b, cutoff) == Recent(a, cutoff)
  {
    var all, n := a + b, |Recent(a, cutoff)|;
    assert all[n] == a[n] && all[..n] == a[..n];
    forall i | 0 <= i < n
      ensures all[i].deliveredAt >= cutoff
    {
      assert all[i] == Recent(a, cutoff)[i];
    }
    RecentIsTake(all, cutoff, n);
  }

  lemma RecentBeyond(a: seq<Delivery>, b: seq<Delivery>, cutoff: int)
    requires Recent(a, cutoff) == a
    ensures Recent(a + b, cutoff) == a + Recent(b, cutoff)
  {
    var all, more := a + b, Recent(b, cutoff);
    var n := |a| + |more|;
    forall i | 0 <= i < n
      ensures all[i].deliveredAt >= cutoff
    {
      if i < |a| {
        assert all[i] == a[i] && a[i] in Recent(a, cutoff);
      } else {
        assert all[i] == more[i - |a|];
      }
    }
    assert n < |all| ==> all[n] == b[|more|];
    RecentIsTake(all, cutoff, n);
    assert all[..n] == a + more;
  }

  /** One page of the walk, when nothing stops it from being asked for. */
  lemma WalkStep(server: Server, url: Name, seen: set<Name>, cutoff: int, rest: seq<Delivery>)
    requires url != BLANK && |seen| < MAX_PAGES && url !in seen && url in server
    requires Walk(server, server[url].next, seen + {url}, cutoff) == Success(Recent(rest, cutoff))
    ensures Walk(server, url, seen, cutoff) == Success(Recent(server[url].items + rest, cutoff))
  {
    var items := server[url].items;
    if |Recent(items, cutoff)| < |items| {
      RecentWithin(items, rest, cutoff);
    } else {
      RecentBeyond(items, rest, cutoff);
    }
  }

  function Asked(urls: seq<Name>, n: nat): set<Name> {
    set i | 0 <= i < n && i < |urls| :: urls[i]
  }

  lemma AskedExtends(urls: seq<Name>, n: nat)
    requires n < |urls|
    ensures Asked(urls, n + 1) == Asked(urls, n) + {urls[n]}
  {
  }

  lemma {:induction false} AskedGrows(urls: seq<Name>, n: nat)
    requires n <= |urls| && forall i, j | 0 <= i < j < |urls| :: urls[i] != urls[j]
    ensures |Asked(urls, n)| == n
  {
    if n == 0 {
      assert Asked(urls, n) == {};
    } else {
      AskedGrows(urls, n - 1);
      AskedExtends(urls, n - 1);
      assert urls[n - 1] !in Asked(urls, n - 1);
    }
  }

  /** Along a chain the walk reads the recent part of the whole list. */
  lemma {:induction false} WalkOfChain(server: Server, urls: seq<Name>, n: nat, cutoff: int)
    requires IsChain(server, urls) && n <= |urls|
    ensures Walk(server, if n < |urls| then urls[n] else BLANK, Asked(urls, n), cutoff)
        == Success(Recent(AllItems(server, urls[n..]), cutoff))
    decreases |urls| - n
  {
    if n < |urls| {
      assert urls[n..][1..] == urls[n + 1..];
      WalkOfChain(server, urls, n + 1, cutoff);
      AskedGrows(urls, n);
      AskedExtends(urls, n);
      assert urls[n] !in Asked(urls, n);
      assert Leads(server, urls, n);
      WalkStep(server, urls[n], Asked(urls, n), cutoff, AllItems(server, urls[n + 1..]));
    }
  }

  /** x is the first entry of its GUID, so in a newest-first list its latest attempt. */
  ghost predicate IsFirst(items: seq<Delivery>, x: Delivery) {
    exists i :: 0 <= i < |items| && items[i] == x && forall j | 0 <= j < i :: items[j].guid != x.guid
  }

  lemma FirstOfPrefix(all: seq<Delivery>, n: nat, x: Delivery)
    requires n <= |all|
    ensures IsFirst(all[..n], x) ==> IsFirst(all, x)
    ensures IsFirst(all, x) && (forall i | n <= i < |all| :: all[i] != x) ==> IsFirst(all[..n], x)
  {
    var prefix := all[..n];
    assert forall j | 0 <= j < n :: prefix[j] == all[j];
    if IsFirst(prefix, x) {
      var i :| 0 <= i < |prefix| && prefix[i] == x && forall j | 0 <= j < i :: prefix[j].guid != x.guid;
      assert all[i] == x;
    }
    if IsFirst(all, x) && forall i | n <= i < |all| :: all[i] != x {
      var i :| 0 <= i < |all| && all[i] == x && forall j | 0 <= j < i :: all[j].guid != x.guid;
      assert prefix[i] == x;
    }
  }

  lemma FirstOfAppend(init: seq<Delivery>, last: Delivery, x: Delivery)
    ensures IsFirst(init + [last], x)
        <==> IsFirst(init, x) || (x == last && forall j | 0 <= j < |init| :: init[j].guid != x.guid)
  {
    var items := init + [last];
    FirstOfPrefix(items, |init|, x);
    assert items[..|init|] == init && items[|init|] == last;
    assert forall j | 0 <= j < |init| :: init[j] == items[j];
    if IsFirst(items, x) && !IsFirst(init, x) {
      var i :| 0 <= i < |items| && items[i] == x && forall j | 0 <= j < i :: items[j].guid != x.guid;
      assert i == |init|;
    }
  }

  lemma {:induction false} FirstsAre(items: seq<Delivery>, x: Delivery)
    ensures x in Firsts(items) <==> !IsBlank(x.guid) && IsFirst(items, x)
  {
    if items != [] {
      var init, last := items[..|items| - 1], items[|items| - 1];
      FirstsAre(init, x);
      FirstOfAppend(init, last, x);
      assert items == init + [last];
      assert (forall j | 0 <= j < |init| :: init[j].guid != x.guid) <==> (forall y | y in init :: y.guid != x.guid);
    }
  }

  /** The walk keeps one entry for a GUID. */
  lemma {:induction false} FirstsAreDistinct(items: seq<Delivery>)
    ensures forall i, j | 0 <= i < j < |Firsts(items)| :: Firsts(items)[i].guid != Firsts(items)[j].guid
    ensures forall x | x in Firsts(items) :: x.guid in Guids(items) && x in items
  {
    if items != [] {
      var init := items[..|items| - 1];
      FirstsAreDistinct(init);
      assert forall x | x in init :: x in items;
    }
  }

  lemma {:induction false} FailuresAre(items: seq<Delivery>, x: Delivery)
    ensures x in Failures(items) <==> x in items && !x.Succeeded()
  {
    if items != [] {
      var init, last := items[..|items| - 1], items[|items| - 1];
      FailuresAre(init, x);
      assert items == init + [last];
    }
  }

  lemma {:induction false} FailuresAreDistinct(items: seq<Delivery>)
    requires forall i, j | 0 <= i < j < |items| :: items[i].guid != items[j].guid
    ensures forall i, j | 0 <= i < j < |Failures(items)| :: Failures(items)[i].guid != Failures(items)[j].guid
    ensures forall x | x in Failures(items) :: x in items
  {
    if items != [] {
      var init, last := items[..|items| - 1], items[|items| - 1];
      FailuresAreDistinct(init);
      forall x | x in Failures(init)
        ensures x.guid != last.guid && x in items
      {
        var i :| 0 <= i < |init| && init[i] == x;
        assert items[i] == x;
      }
    }
  }

  /** In a newest-first list the recent part is everything in the window. */
  lemma RecentIsWindow(all: seq<Delivery>, cutoff: int, x: Delivery)
    requires NewestFirst(all)
    ensures x in Recent(all, cutoff) <==> x in all && x.deliveredAt >= cutoff
  {
    var recent := Recent(all, cutoff);
    forall i | |recent| <= i < |all|
      ensures all[i].deliveredAt < cutoff
    {
      assert all[|recent|].deliveredAt >= all[i].deliveredAt;
    }
    if x in all && x.deliveredAt >= cutoff {
      var i :| 0 <= i < |all| && all[i] == x;
      assert recent[i] == x;
    }
  }

  lemma FirstInWindow(all: seq<Delivery>, cutoff: int, x: Delivery)
    requires NewestFirst(all)
    ensures IsFirst(Recent(all, cutoff), x) <==> IsFirst(all, x) && x.deliveredAt >= cutoff
  {
    var recent := Recent(all, cutoff);
    assert recent == all[..|recent|];
    FirstOfPrefix(all, |recent|, x);
    forall i | |recent| <= i < |all|
      ensures all[i].deliveredAt < cutoff
    {
      assert all[|recent|].deliveredAt >= all[i].deliveredAt;
    }
    if IsFirst(recent, x) {
      assert x in recent;
    }
  }

  /** The latest attempt of its GUID within the window. */
  ghost predicate IsLatest(all: seq<Delivery>, cutoff: int, x: Delivery) {
    !IsBlank(x.guid) && IsFirst(all, x) && x.deliveredAt >= cutoff
  }

  /** What the sweep means to learn from the whole list, said without pages or walking. */
  ghost predicate Reports(all: seq<Delivery>, cutoff: int, listing: Findings) {
    && (forall x :: x in listing.failed <==> IsLatest(all, cutoff, x) && !x.Succeeded())
    && (forall i, j | 0 <= i < j < |listing.failed| :: listing.failed[i].guid != listing.failed[j].guid)
    && (forall x | IsLatest(all, cutoff, x) && x.Answered() :: x.deliveredAt <= listing.newestAnsweredAt)
    && (listing.newestAnsweredAt == NEVER
        || exists x :: IsLatest(all, cutoff, x) && x.Answered() && x.deliveredAt == listing.newestAnsweredAt)
    && (forall x | x in all && x.deliveredAt >= cutoff && !IsBlank(x.guid) ::
          x.guid in listing.earliest && listing.earliest[x.guid] <= x.deliveredAt)
    && (forall guid | guid in listing.earliest ::
          exists x :: x in all && x.deliveredAt >= cutoff && x.guid == guid && !IsBlank(guid) && x.deliveredAt
              == listing.earliest[guid])
  }

  lemma FirstsAreLatest(all: seq<Delivery>, cutoff: int)
    requires NewestFirst(all)
    ensures forall x :: x in Firsts(Recent(all, cutoff)) <==> IsLatest(all, cutoff, x)
  {
    forall x: Delivery
      ensures x in Firsts(Recent(all, cutoff)) <==> IsLatest(all, cutoff, x)
    {
      FirstsAre(Recent(all, cutoff), x);
      FirstInWindow(all, cutoff, x);
    }
  }

  lemma EarliestIsReported(all: seq<Delivery>, cutoff: int, earliest: map<Name, int>)
    requires NewestFirst(all) && AreEarliest(Recent(all, cutoff), earliest)
    ensures forall x | x in all && x.deliveredAt >= cutoff && !IsBlank(x.guid) ::
          x.guid in earliest && earliest[x.guid] <= x.deliveredAt
    ensures forall guid | guid in earliest ::
              exists x :: x in all && x.deliveredAt >= cutoff && x.guid == guid && !IsBlank(guid) && x.deliveredAt
                  == earliest[guid]
  {
    var recent := Recent(all, cutoff);
    forall x | x in all && x.deliveredAt >= cutoff && !IsBlank(x.guid)
      ensures x.guid in earliest && earliest[x.guid] <= x.deliveredAt
    {
      RecentIsWindow(all, cutoff, x);
      assert x.guid in Guids(recent);
    }
    forall guid | guid in earliest
      ensures exists x ::
            x in all && x.deliveredAt >= cutoff && x.guid == guid && !IsBlank(guid) && x.deliveredAt == earliest[guid]
    {
      var x :| x in recent && x.guid == guid && x.deliveredAt == earliest[guid];
      RecentIsWindow(all, cutoff, x);
      assert guid in Guids(recent);
    }
  }

  /**
   For a newest-first list within the page limit, the early-stopping walk reports exactly each GUID's
   latest attempt in the window: which of them failed, the newest that was answered, and each GUID's
   earliest time there.
   */
  lemma WalkReports(server: Server, urls: seq<Name>, cutoff: int, listing: Findings)
    requires IsChain(server, urls) && NewestFirst(AllItems(server, urls))
    requires var walk := Walk(server, if urls == [] then BLANK else urls[0], {}, cutoff);
             walk.Success? ==> Summarizes(walk.value, listing)
    ensures Walk(server, if urls == [] then BLANK else urls[0], {}, cutoff).Success?
    ensures Reports(AllItems(server, urls), cutoff, listing)
  {
    var all := AllItems(server, urls);
    assert urls[0..] == urls;
    WalkOfChain(server, urls, 0, cutoff);
    assert Asked(urls, 0) == {};
    var firsts := Firsts(Recent(all, cutoff));
    FirstsAreLatest(all, cutoff);
    FirstsAreDistinct(Recent(all, cutoff));
    FailuresAreDistinct(firsts);
    forall x: Delivery
      ensures x in listing.failed <==> IsLatest(all, cutoff, x) && !x.Succeeded()
    {
      FailuresAre(firsts, x);
    }
    EarliestIsReported(all, cutoff, listing.earliest);
  }

  /** A latest attempt is at least as recent as every other attempt of its GUID. */
  lemma LatestIsNewest(all: seq<Delivery>, cutoff: int, x: Delivery, y: Delivery)
    requires NewestFirst(all) && IsLatest(all, cutoff, x) && y in all && y.guid == x.guid
    ensures y.deliveredAt <= x.deliveredAt
  {
    var i :| 0 <= i < |all| && all[i] == x && forall j | 0 <= j < i :: all[j].guid != x.guid;
    var j :| 0 <= j < |all| && all[j] == y;
  }
}
