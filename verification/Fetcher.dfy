/**
 src/core/fetcher.ts: which comments of a pull request reach the prompt. Pages of
 reviews are merged with their overflow pages, post-trigger and minimized items
 are dropped, and only then is the newest tail kept.
 */
module Fetcher {
  import opened Basics

  /** `new Date(text).getTime()`; an unreadable date compares as neither earlier
      nor later than anything. */
  datatype Time = At(ms: int) | NotADate

  predicate NotBefore(a: Time, b: Time) {
    a.At? && b.At? && a.ms >= b.ms
  }

  datatype Comment = Comment(body: string, createdAt: Time, updatedAt: Option<Time>, lastEditedAt: Option<Time>,
                             isMinimized: bool)

  datatype Review = Review(id: string, firstPage: seq<Comment>, hasNextPage: bool)

  // ---------------------------------------------------------------------
  // Filtering

  /** Created and last edited before the trigger. */
  predicate BeforeTrigger(c: Comment, trigger: Time) {
    && !NotBefore(c.createdAt, trigger)
    && var lastEdit := if c.lastEditedAt.Some? then c.lastEditedAt else c.updatedAt;
       lastEdit.Some? ==> !NotBefore(lastEdit.value, trigger)
  }

  function Earlier(trigger: Time): Comment -> bool {
    c => BeforeTrigger(c, trigger)
  }

  function FilterByTriggerTime(items: seq<Comment>, trigger: Time): seq<Comment> {
    Filter(items, Earlier(trigger))
  }

  function Filter<T>(items: seq<T>, p: T -> bool): (r: seq<T>)
    ensures |r| <= |items|
  {
    if items == [] then []
    else (if p(items[0]) then [items[0]] else []) + Filter(items[1..], p)
  }

  lemma Associates<T>(a: seq<T>, b: seq<T>, c: seq<T>)
    ensures a + (b + c) == (a + b) + c
  {
  }

  lemma {:induction false} FilterOfConcat<T>(a: seq<T>, b: seq<T>, p: T -> bool)
    ensures Filter(a + b, p) == Filter(a, p) + Filter(b, p)
  {
    if a == [] {
      assert a + b == b;
    } else {
      var head := if p(a[0]) then [a[0]] else [];
      assert (a + b)[1..] == a[1..] + b && (a + b)[0] == a[0];
      FilterOfConcat(a[1..], b, p);
      Associates(head, Filter(a[1..], p), Filter(b, p));
    }
  }

  /** Nothing is added, reordered or lost: what satisfies the condition stays as
      often as it occurs. */
  lemma {:induction false} FilterKeepsExactly<T>(items: seq<T>, p: T -> bool)
    ensures forall x :: multiset(Filter(items, p))[x] == if p(x) then multiset(items)[x] else 0
  {
    if items != [] {
      assert items == [items[0]] + items[1..];
      FilterKeepsExactly(items[1..], p);
    }
  }

  // ---------------------------------------------------------------------
  // The cap

  /** `items.slice(-cap)`; minus zero is zero. */
  function SliceFromEnd<T>(items: seq<T>, cap: nat): seq<T> {
    if cap == 0 || |items| < cap then items else items[|items| - cap..]
  }

  function ApplyCap<T>(items: seq<T>, cap: nat): (seq<T>, bool) {
    if |items| <= cap then (items, false) else (SliceFromEnd(items, cap), true)
  }

  /** The last `cap` items. */
  function Newest<T>(items: seq<T>, cap: nat): seq<T> {
    if |items| <= cap then items else items[|items| - cap..]
  }

  /** The cap keeps the newest items, and reports truncation exactly when it
      dropped some, unless it is zero, which drops nothing and reports it. */
  lemma CapIsExact<T>(items: seq<T>, cap: nat)
    ensures ApplyCap(items, cap) == (Newest(items, cap), |Newest(items, cap)| < |items|) <==> cap > 0 || items == []
  {
    if cap == 0 {
      assert items != [] ==> ApplyCap(items, cap).0 != Newest(items, cap);
    }
  }

  /** What capping at once would lose. */
  function Older<T>(items: seq<T>, cap: nat): seq<T> {
    items[..|items| - |Newest(items, cap)|]
  }

  ghost predicate AllSatisfy<T>(items: seq<T>, p: T -> bool) {
    forall x | x in items :: p(x)
  }

  ghost predicate NoneSatisfies<T>(items: seq<T>, p: T -> bool) {
    forall x | x in items :: !p(x)
  }

  predicate IsSuffix<T(==)>(a: seq<T>, b: seq<T>) {
    |a| <= |b| && a == b[|b| - |a|..]
  }

  /** Filtering before capping never loses against capping first: capping first
      always leaves a suffix of what filtering first leaves. */
  lemma FilterThenCapDominates<T>(items: seq<T>, cap: nat, p: T -> bool)
    ensures IsSuffix(Filter(Newest(items, cap), p), Newest(Filter(items, p), cap))
  {
    var kept := Newest(items, cap);
    assert items == Older(items, cap) + kept;
    FilterOfConcat(Older(items, cap), kept, p);
  }

  /** The two orders agree exactly when the tail already holds a full cap of
      wanted items, or nothing wanted is older than the tail. */
  lemma WhenOrderDoesNotMatter<T>(items: seq<T>, cap: nat, p: T -> bool)
    ensures Filter(Newest(items, cap), p) == Newest(Filter(items, p), cap) <==>
              (|items| >= cap && AllSatisfy(Newest(items, cap), p)) || NoneSatisfies(Older(items, cap), p)
  {
    hide Filter, AllSatisfy, NoneSatisfies;
    var kept, older := Newest(items, cap), Older(items, cap);
    assert items == older + kept;
    FilterOfConcat(older, kept, p);
    FullFilter(kept, p);
    EmptyFilter(older, p);
    TailOfConcat(Filter(older, p), Filter(kept, p), cap);
    assert Newest(Filter(items, p), cap) == Filter(kept, p) <==> Filter(older, p) == [] || |Filter(kept, p)| == cap;
    assert |kept| == cap || (older == [] && |kept| == |items| < cap);
  }

  lemma TailOfConcat<T>(a: seq<T>, b: seq<T>, cap: nat)
    requires |b| <= cap
    ensures Newest(a + b, cap) == b <==> a == [] || |b| == cap
  {
    if a == [] {
      assert a + b == b;
    } else if |a + b| > cap {
      var from := |a| + |b| - cap;
      assert (a + b)[from..] == b ==> |b| == cap;
      assert |b| == cap ==> (a + b)[from..] == b;
    }
  }

  lemma {:induction false} FullFilter<T>(items: seq<T>, p: T -> bool)
    ensures |Filter(items, p)| == |items| <==> AllSatisfy(items, p)
  {
    if items != [] {
      assert items == [items[0]] + items[1..];
      FullFilter(items[1..], p);
    }
  }

  lemma {:induction false} EmptyFilter<T>(items: seq<T>, p: T -> bool)
    ensures Filter(items, p) == [] <==> NoneSatisfies(items, p)
  {
    if items != [] {
      assert items == [items[0]] + items[1..];
      EmptyFilter(items[1..], p);
    }
  }

  // ---------------------------------------------------------------------
  // Overflow pages

  function HasNextPage(): Review -> bool {
    (r: Review) => r.hasNextPage
  }

  function Overflowing(reviews: seq<Review>): seq<Review> {
    Filter(reviews, HasNextPage())
  }

  /** What a review holds: its first page, then the pages that follow it. */
  function OwnComments(r: Review, followUp: Review -> seq<Comment>): seq<Comment> {
    r.firstPage + if r.hasNextPage then followUp(r) else []
  }

  function AllOwn(reviews: seq<Review>, followUp: Review -> seq<Comment>): seq<Comment> {
    if reviews == [] then [] else OwnComments(reviews[0], followUp) + AllOwn(reviews[1..], followUp)
  }

  /** `overflowByReviewId.get(review.id) ?? []` */
  function Lookup(overflow: map<string, seq<Comment>>, id: string): seq<Comment> {
    if id in overflow then overflow[id] else []
  }

  function Merge(reviews: seq<Review>, overflow: map<string, seq<Comment>>): seq<Comment> {
    if reviews == [] then []
    else reviews[0].firstPage + Lookup(overflow, reviews[0].id) + Merge(reviews[1..], overflow)
  }

  /** `overflowByReviewId` after the given reviews: the last write to an id wins. */
  function MapOf(reviews: seq<Review>, followUp: Review -> seq<Comment>): map<string, seq<Comment>> {
    if reviews == [] then map[]
    else
      var last := reviews[|reviews| - 1];
      MapOf(reviews[..|reviews| - 1], followUp)[last.id := followUp(last)]
  }

  /** The last review with an id. */
  function Winner(reviews: seq<Review>, id: string): (w: Option<Review>)
    ensures w.Some? ==> w.value in reviews && w.value.id == id
    ensures w.None? ==> forall r | r in reviews :: r.id != id
  {
    if reviews == [] then None
    else
      var init, last := reviews[..|reviews| - 1], reviews[|reviews| - 1];
      assert reviews == init + [last];
      if last.id == id then Some(last) else Winner(init, id)
  }

  lemma {:induction false} LookupIsWinner(reviews: seq<Review>, followUp: Review -> seq<Comment>, id: string)
    ensures Lookup(MapOf(reviews, followUp), id) ==
            match Winner(reviews, id) { case Some(w) => followUp(w) case None => [] }
  {
    if reviews != [] {
      LookupIsWinner(reviews[..|reviews| - 1], followUp, id);
    }
  }

  /** The ids tell reviews apart wherever one of them overflows. A review may be
      listed twice, and reviews that fit on one page may share an id. */
  ghost predicate Told(reviews: seq<Review>) {
    forall q, r | q in reviews && r in reviews && q.hasNextPage && q.id == r.id :: q == r
  }

  lemma {:induction false} FilterMembers<T>(items: seq<T>, p: T -> bool)
    ensures forall x :: x in Filter(items, p) <==> x in items && p(x)
  {
    if items != [] {
      assert items == [items[0]] + items[1..];
      FilterMembers(items[1..], p);
    }
  }

  /** What the map gives a review when its id is told apart. */
  lemma OwnLookup(all: seq<Review>, followUp: Review -> seq<Comment>, r: Review)
    requires Told(all) && r in all
    ensures Lookup(MapOf(Overflowing(all), followUp), r.id) == if r.hasNextPage then followUp(r) else []
  {
    FilterMembers(all, HasNextPage());
    LookupIsWinner(Overflowing(all), followUp, r.id);
    assert r.hasNextPage ==> r in Overflowing(all);
  }

  /** Where ids tell reviews apart the merge gives each review its own pages. */
  lemma {:induction false} MergeIsOwn(reviews: seq<Review>, all: seq<Review>, followUp: Review -> seq<Comment>)
    requires Told(all)
    requires forall r | r in reviews :: r in all
    ensures Merge(reviews, MapOf(Overflowing(all), followUp)) == AllOwn(reviews, followUp)
  {
    if reviews != [] {
      OwnLookup(all, followUp, reviews[0]);
      MergeIsOwn(reviews[1..], all, followUp);
    }
  }

  /** Follow-up pages for one review alone, to see who gets them. */
  function OnlyFor(l: Review): Review -> seq<Comment> {
    (r: Review) => if r == l then [Comment("", NotADate, None, None, false)] else []
  }

  /** The pages of a winner go to every review of its id: more than its own. */
  lemma {:induction false} NamesakesGetThem(reviews: seq<Review>, all: seq<Review>, l: Review)
    requires l.hasNextPage && Winner(Overflowing(all), l.id) == Some(l)
    ensures var merged, own := Merge(reviews, MapOf(Overflowing(all), OnlyFor(l))), AllOwn(reviews, OnlyFor(l));
            |merged| >= |own| && ((exists r | r in reviews :: r.id == l.id && r != l) ==> |merged| > |own|)
  {
    if reviews != [] {
      var r := reviews[0];
      assert reviews == [r] + reviews[1..];
      LookupIsWinner(Overflowing(all), OnlyFor(l), r.id);
      NamesakesGetThem(reviews[1..], all, l);
    }
  }

  /** For every list of reviews: the merge gives each review its own pages, whatever
      the follow-up queries return, if and only if the ids tell them apart. */
  lemma MergeIsOwnIff(all: seq<Review>)
    ensures (forall followUp :: Merge(all, MapOf(Overflowing(all), followUp)) == AllOwn(all, followUp)) <==> Told(all)
  {
    if Told(all) {
      forall followUp ensures Merge(all, MapOf(Overflowing(all), followUp)) == AllOwn(all, followUp) {
        MergeIsOwn(all, all, followUp);
      }
    } else {
      var q, r :| q in all && r in all && q.hasNextPage && q.id == r.id && q != r;
      FilterMembers(all, HasNextPage());
      assert q in Overflowing(all);
      var l := Winner(Overflowing(all), q.id).value;
      assert l in Overflowing(all);
      NamesakesGetThem(all, all, l);
      var odd := if q == l then r else q;
      assert odd in all && odd.id == l.id && odd != l;
    }
  }

  // ---------------------------------------------------------------------
  // fetchPRData

  datatype Caps = Caps(comments: nat, reviews: nat, reviewComments: nat, files: nat)

  datatype Truncated = Truncated(comments: bool, reviews: bool, reviewComments: bool, changedFiles: bool)

  datatype Fetched<F> = Fetched(comments: seq<Comment>, reviewComments: seq<Comment>, changedFiles: seq<F>,
                                truncated: Truncated)

  function NotMinimized(): Comment -> bool {
    (c: Comment) => !c.isMinimized
  }

  function WantedBy(trigger: Time): Comment -> bool {
    c => Wanted(c, trigger)
  }

  /** What may reach the prompt: neither minimized, nor known to be created, or last
      edited, at the trigger or later. The edit date is the second choice of what
      tells the last edit. */
  predicate Wanted(c: Comment, trigger: Time) {
    && c.isMinimized == false
    && !(trigger.At? && c.createdAt.At? && trigger.ms <= c.createdAt.ms)
    && match (c.lastEditedAt, c.updatedAt)
       case (Some(At(edited)), _) => !(trigger.At? && trigger.ms <= edited)
       case (Some(NotADate), _) => true
       case (None, Some(At(updated))) => !(trigger.At? && trigger.ms <= updated)
       case (None, _) => true
  }

  lemma {:induction false} FilterTwice(items: seq<Comment>, trigger: Time)
    ensures Filter(Filter(items, NotMinimized()), Earlier(trigger)) == Filter(items, WantedBy(trigger))
  {
    if items != [] {
      var p, q := NotMinimized(), Earlier(trigger);
      FilterTwice(items[1..], trigger);
      var head := if p(items[0]) then [items[0]] else [];
      FilterOfConcat(head, Filter(items[1..], p), q);
      assert head != [] ==> head[1..] == [];
    }
  }

  method OverflowMap(overflowReviews: seq<Review>, overflowResults: seq<seq<Comment>>,
                     ghost followUp: Review -> seq<Comment>)
    returns (overflow: map<string, seq<Comment>>)
    requires |overflowResults| == |overflowReviews|
    requires forall i | 0 <= i < |overflowReviews| :: overflowResults[i] == followUp(overflowReviews[i])
    ensures overflow == MapOf(overflowReviews, followUp)
  {
    overflow := map[];
    for i := 0 to |overflowReviews|
      invariant overflow == MapOf(overflowReviews[..i], followUp)
    {
      var r := overflowReviews[i];
      assert overflowReviews[..i + 1][..i] == overflowReviews[..i];
      overflow := overflow[r.id := overflowResults[i]];
    }
    assert overflowReviews[..|overflowReviews|] == overflowReviews;
  }

  /** The nodes the three queries returned, to what the prompt is built from. The
      follow-up results are those of pMap over the overflowing reviews. */
  method FetchPullRequest<F>(nodes: seq<Comment>, reviews: seq<Review>, files: seq<F>, trigger: Time, caps: Caps,
                             overflowResults: seq<seq<Comment>>, ghost followUp: Review -> seq<Comment>)
    returns (data: Fetched<F>)
    requires caps.comments > 0 && caps.reviews > 0 && caps.reviewComments > 0 && caps.files > 0
    requires var over := Overflowing(Newest(reviews, caps.reviews));
             |overflowResults| == |over| && forall i | 0 <= i < |over| :: overflowResults[i] == followUp(over[i])
    ensures var wanted := Filter(nodes, WantedBy(trigger));
            data.comments == Newest(wanted, caps.comments) && data.truncated.comments == (|wanted| > caps.comments)
    ensures var capped := Newest(reviews, caps.reviews);
            var wanted := Filter(Merge(capped, MapOf(Overflowing(capped), followUp)), WantedBy(trigger));
            && data.reviewComments == Newest(wanted, caps.reviewComments)
            && data.truncated.reviewComments == (|wanted| > caps.reviewComments)
            && (Told(capped) ==> wanted == Filter(AllOwn(capped, followUp), WantedBy(trigger)))
    ensures data.truncated.reviews == (|reviews| > caps.reviews)
    ensures data.changedFiles == Newest(files, caps.files) && data.truncated.changedFiles == (|files| > caps.files)
  {
    CapIsExact(reviews, caps.reviews);
    var (cappedReviews, reviewsCut) := ApplyCap(reviews, caps.reviews);
    var overflowReviews := Overflowing(cappedReviews);
    var overflow := OverflowMap(overflowReviews, overflowResults, followUp);
    MergeIsOwnIff(cappedReviews);
    var allReviewComments := Merge(cappedReviews, overflow);
    var filteredComments := WantedOf(nodes, trigger);
    var filteredReviewComments := WantedOf(allReviewComments, trigger);
    CapIsExact(filteredComments, caps.comments);
    CapIsExact(filteredReviewComments, caps.reviewComments);
    CapIsExact(files, caps.files);
    var (comments, commentsCut) := ApplyCap(filteredComments, caps.comments);
    var (reviewComments, reviewCommentsCut) := ApplyCap(filteredReviewComments, caps.reviewComments);
    var (changedFiles, filesCut) := ApplyCap(files, caps.files);
    data := Fetched(comments, reviewComments, changedFiles, Truncated(commentsCut, reviewsCut, reviewCommentsCut, filesCut));
  }

  function WantedOf(items: seq<Comment>, trigger: Time): (r: seq<Comment>)
    ensures r == Filter(items, WantedBy(trigger))
  {
    FilterTwice(items, trigger);
    FilterByTriggerTime(Filter(items, NotMinimized()), trigger)
  }
}
