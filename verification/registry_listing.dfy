/** One repository's images: pages of artifacts, expanded by tag, cut at a limit. */
module RegistryPaging {
  import opened Basics
  import opened Outcomes

  const PAGE_SIZE: nat := 100
  const MAX_IMAGES: nat := 500

  datatype Artifact = Artifact(
    kind: Option<string>,
    digest: string,
    size: int,
    pushTime: Option<string>,
    tags: Option<seq<string>>)

  datatype Image = Image(
    reference: string,
    repository: string,
    tag: Option<string>,
    digest: string,
    size: nat,
    pushedAt: Option<string>)

  /** Where the images live: the registry authority, the project and the repository in it. */
  datatype Repository = Repository(authority: string, project: string, name: string)

  function Lower(c: char): char {
    if 'A' <= c <= 'Z' then (c as int + 32) as char else c
  }

  predicate EqIgnoreAsciiCase(a: string, b: string) {
    |a| == |b| && forall i :: 0 <= i < |a| ==> Lower(a[i]) == Lower(b[i])
  }

  predicate IsImage(a: Artifact) {
    a.kind.None? || EqIgnoreAsciiCase(a.kind.value, "image")
  }

  function Size(a: Artifact): nat { if a.size < 0 then 0 else a.size }

  function Path(r: Repository): string {
    r.authority + "/" + r.project + "/" + r.name
  }

  function ByDigest(r: Repository, a: Artifact): Image {
    Image(Path(r) + "@" + a.digest, r.name, None, a.digest, Size(a), a.pushTime)
  }

  function ByTag(r: Repository, a: Artifact, tag: string): Image {
    Image(Path(r) + ":" + tag, r.name, Some(tag), a.digest, Size(a), a.pushTime)
  }

  function TagsOf(a: Artifact): seq<string> {
    if a.tags.Some? then a.tags.value else []
  }

  /** An image artifact stands for each of its tags, or for its digest when it has none. */
  function Expand(r: Repository, a: Artifact): seq<Image> {
    if !IsImage(a) then []
    else if TagsOf(a) == [] then [ByDigest(r, a)]
    else seq(|TagsOf(a)|, i requires 0 <= i < |TagsOf(a)| => ByTag(r, a, TagsOf(a)[i]))
  }

  /** The word "image" in any mix of cases. */
  predicate SaysImage(kind: string) {
    |kind| == 5 && forall i :: 0 <= i < 5 ==> kind[i] == "image"[i] || kind[i] == "IMAGE"[i]
  }

  /**
  The images of an artifact, in full: none for another kind of artifact; its digest if it has no tags; else
  one per tag, in order. Each names authority, project and repository.
  */
  lemma ExpandExactly(r: Repository, a: Artifact)
    ensures var images, path := Expand(r, a), r.authority + "/" + r.project + "/" + r.name;
            var size := if a.size > 0 then a.size else 0;
            if a.kind.Some? && !SaysImage(a.kind.value) then images == []
            else match a.tags
                 case Some(tags) =>
                   if tags == [] then images == [Image(path + "@" + a.digest, r.name, None, a.digest, size, a.pushTime)]
                   else |images| == |tags| && forall i :: 0 <= i < |tags| ==>
                          images[i] == Image(path + ":" + tags[i], r.name, Some(tags[i]), a.digest, size, a.pushTime)
                 case None => images == [Image(path + "@" + a.digest, r.name, None, a.digest, size, a.pushTime)]
  {
    if a.kind.Some? { ImageInAnyCase(a.kind.value); }
    hide EqIgnoreAsciiCase, SaysImage;
  }

  lemma ImageInAnyCase(kind: string)
    ensures EqIgnoreAsciiCase(kind, "image") <==> SaysImage(kind)
  {
    if |kind| == 5 {
      forall i | 0 <= i < 5
        ensures Lower(kind[i]) == Lower("image"[i]) <==> kind[i] == "image"[i] || kind[i] == "IMAGE"[i]
      {
        assert "image"[i] as int == "IMAGE"[i] as int + 32;
      }
    }
  }

  function ExpandAll(r: Repository, artifacts: seq<Artifact>): seq<Image> {
    if artifacts == [] then []
    else ExpandAll(r, artifacts[..|artifacts| - 1]) + Expand(r, artifacts[|artifacts| - 1])
  }

  function Take<T>(s: seq<T>, n: nat): seq<T> {
    if |s| <= n then s else s[..n]
  }

  /** The server's answer to page `p`, counted from one. */
  function Page(listing: seq<Artifact>, p: nat): seq<Artifact>
    requires p >= 1
  {
    listing[Min((p - 1) * PAGE_SIZE, |listing|)..Min(p * PAGE_SIZE, |listing|)]
  }

  /** Page `p` is asked for: the pages before it were full and gave fewer images than the limit. */
  predicate Asked(r: Repository, listing: seq<Artifact>, p: nat) {
    && p >= 1
    && (p - 1) * PAGE_SIZE <= |listing|
    && |ExpandAll(r, listing[..(p - 1) * PAGE_SIZE])| < MAX_IMAGES
  }

  lemma {:induction false} ExpandSplit(r: Repository, listing: seq<Artifact>, n: nat)
    requires n <= |listing|
    ensures ExpandAll(r, listing[..n]) <= ExpandAll(r, listing)
    decreases |listing| - n
  {
    hide Expand;
    if n < |listing| {
      ExpandSplit(r, listing, n + 1);
      assert listing[..n + 1][..n] == listing[..n];
    } else {
      assert listing[..n] == listing;
    }
  }

  lemma ExpandSnoc(r: Repository, listing: seq<Artifact>, n: nat)
    requires n < |listing|
    ensures ExpandAll(r, listing[..n + 1]) == ExpandAll(r, listing[..n]) + Expand(r, listing[n])
  {
    hide Expand;
    assert listing[..n + 1][..n] == listing[..n];
  }

  /** Once a prefix gives enough images, the rest of the listing does not matter. */
  lemma EnoughIsEnough(r: Repository, listing: seq<Artifact>, n: nat)
    requires n <= |listing| && |ExpandAll(r, listing[..n])| >= MAX_IMAGES
    ensures Take(ExpandAll(r, listing[..n]), MAX_IMAGES) == Take(ExpandAll(r, listing), MAX_IMAGES)
  {
    hide ExpandAll;
    ExpandSplit(r, listing, n);
  }

  /** The images of one artifact are pushed one by one until the limit. */
  method PushArtifact(r: Repository, a: Artifact, before: seq<Image>) returns (images: seq<Image>)
    requires |before| < MAX_IMAGES
    ensures images == Take(before + Expand(r, a), MAX_IMAGES)
  {
    images := before;
    if a.kind.Some? && !EqIgnoreAsciiCase(a.kind.value, "image") { return; }
    var tags := TagsOf(a);
    if tags == [] {
      images := images + [ByDigest(r, a)];
    }
    for i := 0 to |tags|
      invariant tags != [] ==> |before| + i <= MAX_IMAGES && images == before + Expand(r, a)[..i]
      invariant tags == [] ==> images == before + Expand(r, a)
      invariant i < |tags| ==> |images| < MAX_IMAGES
    {
      images := images + [ByTag(r, a, tags[i])];
      assert Expand(r, a)[..i + 1] == Expand(r, a)[..i] + [Expand(r, a)[i]];
      if |images| >= MAX_IMAGES {
        assert images == (before + Expand(r, a))[..MAX_IMAGES];
        return;
      }
    }
    if tags != [] {
      assert Expand(r, a)[..|tags|] == Expand(r, a);
    }
  }

  /** One page: stop inside it when the limit is reached. */
  method PushPage(r: Repository, listing: seq<Artifact>, done: nat, page: seq<Artifact>, before: seq<Image>)
    returns (images: seq<Image>)
    requires done + |page| <= |listing| && page == listing[done..done + |page|]
    requires before == ExpandAll(r, listing[..done]) && |before| < MAX_IMAGES
    ensures images == Take(ExpandAll(r, listing[..done + |page|]), MAX_IMAGES)
  {
    hide Expand, ExpandAll;
    images := before;
    for j := 0 to |page|
      invariant images == ExpandAll(r, listing[..done + j]) && |images| < MAX_IMAGES
    {
      ExpandSnoc(r, listing, done + j);
      assert page[j] == listing[done + j];
      images := PushArtifact(r, page[j], images);
      if |images| >= MAX_IMAGES {
        assert listing[..done + |page|][..done + j + 1] == listing[..done + j + 1];
        EnoughIsEnough(r, listing[..done + |page|], done + j + 1);
        return;
      }
    }
  }

  /**
  The paging loop. `status(p)` is the failure, if any, of the request for page `p`. It answers with
  exactly the first 500 images of the whole listing, or with the failure of the first page that was
  asked for and failed.
  */
  method ListRepositoryImages(r: Repository, listing: seq<Artifact>, status: nat -> Option<int>)
    returns (result: Result<seq<Image>, int>)
    ensures result.Ok? ==> result.value == Take(ExpandAll(r, listing), MAX_IMAGES)
    ensures result.Ok? <==> forall p: nat :: Asked(r, listing, p) ==> status(p).None?
    ensures result.Err? ==>
              exists p: nat :: Asked(r, listing, p) && status(p) == Some(result.error)
                          && forall q: nat :: 1 <= q < p ==> status(q).None?
  {
    hide Expand, ExpandAll;
    var images: seq<Image> := [];
    var page, done := 1, 0;
    NothingExpanded(r, listing);
    while |images| < MAX_IMAGES
      invariant page >= 1 && done == (page - 1) * PAGE_SIZE <= |listing|
      invariant images == Take(ExpandAll(r, listing[..done]), MAX_IMAGES)
      invariant forall q: nat :: 1 <= q < page ==> status(q).None?
      invariant |images| >= MAX_IMAGES ==> forall p: nat :: Asked(r, listing, p) ==> p < page
      decreases |listing| - done, MAX_IMAGES - |images|
    {
      assert Asked(r, listing, page);
      if status(page).Some? {
        return Err(status(page).value);
      }
      var artifacts := Page(listing, page);
      images := PushPage(r, listing, done, artifacts, images);
      if |artifacts| < PAGE_SIZE {
        assert listing[..done + |artifacts|] == listing;
        LastPageAsked(r, listing, page);
        return Ok(images);
      }
      done := done + PAGE_SIZE;
      page := page + 1;
      if |images| >= MAX_IMAGES {
        FullMeansNotAsked(r, listing, page);
      }
    }
    EnoughIsEnough(r, listing, done);
    result := Ok(images);
  }

  lemma NothingExpanded(r: Repository, listing: seq<Artifact>)
    ensures ExpandAll(r, listing[..0]) == []
  {
  }

  lemma LastPageAsked(r: Repository, listing: seq<Artifact>, page: nat)
    requires page >= 1 && |listing| < page * PAGE_SIZE
    ensures forall p: nat :: Asked(r, listing, p) ==> p <= page
  {
  }

  lemma MoreArtifactsMoreImages(r: Repository, listing: seq<Artifact>, m: nat, n: nat)
    requires m <= n <= |listing|
    ensures |ExpandAll(r, listing[..m])| <= |ExpandAll(r, listing[..n])|
  {
    hide ExpandAll;
    assert listing[..n][..m] == listing[..m];
    ExpandSplit(r, listing[..n], m);
  }

  lemma FullMeansNotAsked(r: Repository, listing: seq<Artifact>, page: nat)
    requires page >= 1 && (page - 1) * PAGE_SIZE <= |listing|
    requires |ExpandAll(r, listing[..(page - 1) * PAGE_SIZE])| >= MAX_IMAGES
    ensures forall p: nat :: Asked(r, listing, p) ==> p < page
  {
    hide ExpandAll;
    forall p: nat | Asked(r, listing, p)
      ensures p < page
    {
      if p >= page {
        MoreArtifactsMoreImages(r, listing, (page - 1) * PAGE_SIZE, (p - 1) * PAGE_SIZE);
      }
    }
  }
}

/** All images of a project: merge repositories in completion order, sort, keep one per reference, cut. */
module RegistryListing {
  import opened Permutations
  import opened Outcomes
  import opened Order
  import opened RegistryPaging

  /** What order and deduplication look at. */
  datatype Key = Key(reference: string, pushedAt: Option<string>)

  function KeyOf(image: Image): Key { Key(image.reference, image.pushedAt) }

  /** Pushed earlier, or never. */
  ghost predicate PushLess(a: Option<string>, b: Option<string>) {
    match (a, b)
    case (None, Some(_)) => true
    case (Some(x), Some(y)) => Precedes(x, y)
    case (_, None) => false
  }

  /** Latest push first, then by reference. */
  ghost predicate Before(x: Key, y: Key) {
    PushLess(y.pushedAt, x.pushedAt) || (x.pushedAt == y.pushedAt && Precedes(x.reference, y.reference))
  }

  /** The comparison of push times that the sort makes. */
  predicate PushCompares(a: Option<string>, b: Option<string>) {
    b.Some? && (a.None? || Less(a.value, b.value))
  }

  /** The comparison of images that the sort makes. */
  predicate Compares(x: Key, y: Key) {
    PushCompares(y.pushedAt, x.pushedAt) || (x.pushedAt == y.pushedAt && Less(x.reference, y.reference))
  }

  lemma ComparesExactly(x: Key, y: Key)
    ensures Compares(x, y) <==> Before(x, y)
  {
    hide Less, Precedes;
    if x.pushedAt.Some? && y.pushedAt.Some? { LessExactly(y.pushedAt.value, x.pushedAt.value); }
    LessExactly(x.reference, y.reference);
  }

  lemma PushTotal(a: Option<string>, b: Option<string>)
    ensures a == b || PushLess(a, b) || PushLess(b, a)
    ensures PushLess(a, b) ==> a != b && !PushLess(b, a)
  {
    hide Less, Precedes;
    if a.Some? && b.Some? { PrecedesTotal(a.value, b.value); }
  }

  lemma PushTransitive(a: Option<string>, b: Option<string>, c: Option<string>)
    requires PushLess(a, b) && PushLess(b, c)
    ensures PushLess(a, c)
  {
    hide Precedes;
    if a.Some? {
      PrecedesTransitive(a.value, b.value, c.value);
    }
  }

  lemma BeforeTotal(x: Key, y: Key)
    ensures x == y || Before(x, y) || Before(y, x)
    ensures Before(x, y) ==> x != y && !Before(y, x)
  {
    PushTotal(x.pushedAt, y.pushedAt);
    PushTotal(y.pushedAt, x.pushedAt);
    PrecedesTotal(x.reference, y.reference);
    hide Precedes;
  }

  lemma BeforeTransitive(x: Key, y: Key, z: Key)
    requires Before(x, y) && Before(y, z)
    ensures Before(x, z)
  {
    if PushLess(y.pushedAt, x.pushedAt) && PushLess(z.pushedAt, y.pushedAt) {
      PushTransitive(z.pushedAt, y.pushedAt, x.pushedAt);
    } else if x.pushedAt == y.pushedAt && y.pushedAt == z.pushedAt {
      PrecedesTransitive(x.reference, y.reference, z.reference);
    }
  }

  /** No later element belongs strictly before an earlier one. */
  ghost predicate Sorted(images: seq<Image>) {
    forall i, j :: 0 <= i < j < |images| ==> !Before(KeyOf(images[j]), KeyOf(images[i]))
  }

  /** Stable insertion: behind every element that is not strictly after it. */
  function Insert(images: seq<Image>, x: Image): seq<Image> {
    if images == [] then [x]
    else
      var last := images[|images| - 1];
      if Compares(KeyOf(x), KeyOf(last)) then Insert(images[..|images| - 1], x) + [last]
      else images + [x]
  }

  function Sort(images: seq<Image>): seq<Image> {
    if images == [] then [] else Insert(Sort(images[..|images| - 1]), images[|images| - 1])
  }

  lemma {:induction false} InsertKeeps(images: seq<Image>, x: Image)
    ensures multiset(Insert(images, x)) == multiset(images) + multiset{x}
  {
    hide Compares;
    if images != [] {
      var rest, last := images[..|images| - 1], images[|images| - 1];
      assert images == rest + [last];
      InsertKeeps(rest, x);
    }
  }

  lemma {:induction false} InsertSorts(images: seq<Image>, x: Image)
    requires Sorted(images)
    ensures Sorted(Insert(images, x))
  {
    hide Compares, Before;
    if images != [] {
      var rest, last := images[..|images| - 1], images[|images| - 1];
      var out := Insert(images, x);
      ComparesExactly(KeyOf(x), KeyOf(last));
      if Before(KeyOf(x), KeyOf(last)) {
        InsertSorts(rest, x);
        InsertKeeps(rest, x);
        var front := Insert(rest, x);
        forall i | 0 <= i < |front|
          ensures !Before(KeyOf(last), KeyOf(front[i]))
        {
          assert front[i] in multiset(front);
          if front[i] == x {
            BeforeTotal(KeyOf(x), KeyOf(last));
          } else {
            assert front[i] in rest;
          }
        }
      } else {
        forall i | 0 <= i < |images|
          ensures !Before(KeyOf(x), KeyOf(images[i]))
        {
          if Before(KeyOf(x), KeyOf(images[i])) && i < |rest| {
            BeforeTotal(KeyOf(images[i]), KeyOf(last));
            if Before(KeyOf(images[i]), KeyOf(last)) {
              BeforeTransitive(KeyOf(x), KeyOf(images[i]), KeyOf(last));
            }
          }
        }
      }
    }
  }

  lemma {:induction false} SortSorts(images: seq<Image>)
    ensures Sorted(Sort(images)) && multiset(Sort(images)) == multiset(images)
  {
    if images != [] {
      var rest, last := images[..|images| - 1], images[|images| - 1];
      assert images == rest + [last];
      SortSorts(rest);
      InsertSorts(Sort(rest), last);
      InsertKeeps(Sort(rest), last);
    }
  }

  /** No image of the same reference was pushed later. */
  ghost predicate Latest(images: seq<Image>, x: Image) {
    && x in images
    && forall y :: y in images && y.reference == x.reference ==> !PushLess(x.pushedAt, y.pushedAt)
  }

  /** Listed in strict order, hence each reference once, each with its latest push. */
  ghost predicate Ranked(images: seq<Image>, out: seq<Image>) {
    && (forall i :: 0 <= i < |out| ==> Latest(images, out[i]))
    && (forall i, j :: 0 <= i < j < |out| ==> Before(KeyOf(out[i]), KeyOf(out[j])))
    && (forall i, j :: 0 <= i < j < |out| ==> out[i].reference != out[j].reference)
  }

  ghost predicate Lists(out: seq<Image>, reference: string) {
    exists i :: 0 <= i < |out| && out[i].reference == reference
  }

  /** Whatever is missing comes after everything listed, and is missing only because the list is full. */
  ghost predicate Complete(images: seq<Image>, out: seq<Image>, limit: nat) {
    && |out| <= limit
    && forall x :: Latest(images, x) ==>
         || Lists(out, x.reference)
         || (|out| == limit && forall i :: 0 <= i < |out| ==> Before(KeyOf(out[i]), KeyOf(x)))
  }

  ghost predicate IsListing(images: seq<Image>, out: seq<Image>) {
    Ranked(images, out) && Complete(images, out, MAX_IMAGES)
  }

  /** The first image of each reference, in order. */
  ghost predicate FirstsOf(sorted: seq<Image>, out: seq<Image>) {
    Ranked(sorted, out) && forall x :: x in sorted ==> Lists(out, x.reference)
  }

  ghost predicate NotBefore(x: Image, out: seq<Image>) {
    forall i :: 0 <= i < |out| ==> !Before(KeyOf(x), KeyOf(out[i]))
  }

  lemma StillLatest(before: seq<Image>, x: Image, y: Image)
    requires Latest(before, y) && !Before(KeyOf(x), KeyOf(y))
    ensures Latest(before + [x], y)
  {
  }

  lemma RepeatedImage(before: seq<Image>, x: Image, out: seq<Image>)
    requires FirstsOf(before, out) && NotBefore(x, out) && Lists(out, x.reference)
    ensures FirstsOf(before + [x], out)
  {
    hide Lists, Latest;
    forall i | 0 <= i < |out|
      ensures Latest(before + [x], out[i])
    {
      StillLatest(before, x, out[i]);
    }
  }

  lemma NewIsLatest(before: seq<Image>, x: Image)
    requires forall y :: y in before ==> y.reference != x.reference
    ensures Latest(before + [x], x)
  {
    PushTotal(x.pushedAt, x.pushedAt);
  }

  lemma ListsMore(out: seq<Image>, x: Image, reference: string)
    ensures Lists(out + [x], reference) <==> Lists(out, reference) || x.reference == reference
  {
    assert forall i :: 0 <= i < |out| ==> (out + [x])[i] == out[i];
    assert (out + [x])[|out|] == x;
  }

  lemma NewImage(before: seq<Image>, x: Image, out: seq<Image>)
    requires FirstsOf(before, out) && NotBefore(x, out) && !Lists(out, x.reference)
    ensures FirstsOf(before + [x], out + [x])
  {
    hide Latest, Before;
    var longer := out + [x];
    NewIsLatest(before, x);
    forall i | 0 <= i < |longer|
      ensures Latest(before + [x], longer[i])
    {
      if i < |out| {
        StillLatest(before, x, out[i]);
      }
    }
    forall i | 0 <= i < |out|
      ensures Before(KeyOf(out[i]), KeyOf(x)) && out[i].reference != x.reference
    {
      BeforeTotal(KeyOf(out[i]), KeyOf(x));
    }
    forall y | y in before + [x]
      ensures Lists(longer, y.reference)
    {
      ListsMore(out, x, y.reference);
    }
  }

  lemma SortedMeansNotBefore(sorted: seq<Image>, n: nat, out: seq<Image>)
    requires Sorted(sorted) && n < |sorted| && FirstsOf(sorted[..n], out)
    ensures NotBefore(sorted[n], out)
  {
    hide Before;
    forall i | 0 <= i < |out|
      ensures !Before(KeyOf(sorted[n]), KeyOf(out[i]))
    {
      assert Latest(sorted[..n], out[i]);
    }
  }

  /** `retain` with a set of seen references. */
  method KeepFirsts(sorted: seq<Image>) returns (out: seq<Image>)
    requires Sorted(sorted)
    ensures FirstsOf(sorted, out)
  {
    hide Before, Latest;
    out := [];
    var references: set<string> := {};
    for n := 0 to |sorted|
      invariant FirstsOf(sorted[..n], out)
      invariant forall s :: s in references <==> Lists(out, s)
    {
      var x := sorted[n];
      SortedMeansNotBefore(sorted, n, out);
      assert sorted[..n + 1] == sorted[..n] + [x];
      if x.reference !in references {
        NewImage(sorted[..n], x, out);
        forall s ensures Lists(out + [x], s) <==> Lists(out, s) || x.reference == s { ListsMore(out, x, s); }
        out := out + [x];
        references := references + {x.reference};
      } else {
        RepeatedImage(sorted[..n], x, out);
      }
    }
    assert sorted[..|sorted|] == sorted;
  }

  lemma SameMembers(a: seq<Image>, b: seq<Image>)
    requires multiset(a) == multiset(b)
    ensures forall x :: x in a <==> x in b
    ensures forall x :: Latest(a, x) <==> Latest(b, x)
  {
    hide PushLess;
    assert forall x :: x in a <==> x in multiset(a);
    assert forall x :: x in b <==> x in multiset(b);
  }

  lemma CutIsListing(images: seq<Image>, sorted: seq<Image>, out: seq<Image>)
    requires multiset(sorted) == multiset(images) && FirstsOf(sorted, out)
    ensures IsListing(images, Take(out, MAX_IMAGES))
  {
    hide Before;
    SameMembers(images, sorted);
    var cut := Take(out, MAX_IMAGES);
    forall x | Latest(images, x)
      ensures Lists(cut, x.reference)
              || (|cut| == MAX_IMAGES && forall i :: 0 <= i < |cut| ==> Before(KeyOf(cut[i]), KeyOf(x)))
    {
      var k :| 0 <= k < |out| && out[k].reference == x.reference;
      LatestAgree(sorted, out[k], x);
      if k < |cut| {
        assert cut[k] == out[k];
      }
    }
  }

  function Merge(results: seq<seq<Image>>): seq<Image> {
    if results == [] then [] else Merge(results[..|results| - 1]) + results[|results| - 1]
  }

  /**
  `list_project_images` once the repositories have answered, in whatever order: the first failure
  fails the whole, otherwise the merged images are sorted, deduplicated and cut.
  */
  method ListProjectImages(results: seq<Result<seq<Image>, int>>) returns (out: Result<seq<Image>, int>)
    ensures out.Ok? <==> forall i :: 0 <= i < |results| ==> results[i].Ok?
    ensures out.Err? ==>
              exists i :: 0 <= i < |results| && results[i] == Err(out.error) && forall j :: 0 <= j < i ==> results[j].Ok?
    ensures out.Ok? ==>
              IsListing(Merge(seq(|results|, i requires 0 <= i < |results| && results[i].Ok? => results[i].value)), out.value)
    ensures out.Ok? ==>
              && |out.value| <= 500
              && (|out.value| < 500 ==>
                    forall i, x :: 0 <= i < |results| && x in results[i].value ==> Lists(out.value, x.reference))
  {
    hide IsListing, Ranked, Lists, Sorted, Sort;
    var images: seq<Image> := [];
    ghost var answers: seq<seq<Image>> := [];
    for n := 0 to |results|
      invariant forall i :: 0 <= i < n ==> results[i].Ok?
      invariant |answers| == n && forall i :: 0 <= i < n ==> answers[i] == results[i].value
      invariant images == Merge(answers)
      invariant forall i, x :: 0 <= i < n && x in results[i].value ==> x in images
    {
      if results[n].Err? { return Err(results[n].error); }
      images := images + results[n].value;
      assert (answers + [results[n].value])[..n] == answers;
      answers := answers + [results[n].value];
    }
    SortSorts(images);
    var sorted := Sort(images);
    var firsts := KeepFirsts(sorted);
    CutIsListing(images, sorted, firsts);
    SameMembers(images, sorted);
    out := Ok(Take(firsts, MAX_IMAGES));
    assert answers == seq(|results|, i requires 0 <= i < |results| && results[i].Ok? => results[i].value);
  }

  // ---------------------------------------------------------------- independence of completion order

  lemma LatestAgree(images: seq<Image>, x: Image, y: Image)
    requires Latest(images, x) && Latest(images, y) && x.reference == y.reference
    ensures KeyOf(x) == KeyOf(y)
  {
    PushTotal(x.pushedAt, y.pushedAt);
  }

  /** With equal keys so far, the next key of `other` is not after the next key of `out`. */
  lemma NextNotAfter(images: seq<Image>, out: seq<Image>, other: seq<Image>, i: nat)
    requires IsListing(images, out) && IsListing(images, other) && i < |out| && i < |other|
    requires forall j :: 0 <= j < i ==> KeyOf(out[j]) == KeyOf(other[j])
    ensures KeyOf(other[i]) == KeyOf(out[i]) || Before(KeyOf(other[i]), KeyOf(out[i]))
  {
    hide Before;
    var x := out[i];
    assert Latest(images, x);
    if j :| 0 <= j < |other| && other[j].reference == x.reference {
      LatestAgree(images, x, other[j]);
      if j < i {
        assert KeyOf(out[j]).reference == x.reference;
      }
    }
  }

  lemma {:induction false} KeysAgree(images: seq<Image>, out: seq<Image>, other: seq<Image>, n: nat)
    requires IsListing(images, out) && IsListing(images, other) && n <= |out| && n <= |other|
    ensures forall i :: 0 <= i < n ==> KeyOf(out[i]) == KeyOf(other[i])
  {
    hide Before, IsListing;
    if n > 0 {
      KeysAgree(images, out, other, n - 1);
      NextNotAfter(images, out, other, n - 1);
      NextNotAfter(images, other, out, n - 1);
      BeforeTotal(KeyOf(out[n - 1]), KeyOf(other[n - 1]));
    }
  }

  lemma NotShorter(images: seq<Image>, out: seq<Image>, other: seq<Image>)
    requires IsListing(images, out) && IsListing(images, other)
    ensures |other| <= |out|
  {
    hide Before;
    if |out| < |other| {
      var x := other[|out|];
      assert Latest(images, x) && Lists(out, x.reference);
      var j :| 0 <= j < |out| && out[j].reference == x.reference;
      KeysAgree(images, out, other, |out|);
    }
  }

  lemma SameImagesSameListing(images: seq<Image>, others: seq<Image>, out: seq<Image>)
    requires multiset(images) == multiset(others) && IsListing(others, out)
    ensures IsListing(images, out)
  {
    hide Before, Latest;
    SameMembers(images, others);
  }

  /**
  Order independence. Whatever order the repositories complete in, the listing shows the same
  references with the same push times in the same order: it is determined by the images alone.
  */
  lemma ListingIgnoresCompletionOrder(images: seq<Image>, others: seq<Image>, out: seq<Image>, other: seq<Image>)
    requires multiset(images) == multiset(others)
    requires IsListing(images, out) && IsListing(others, other)
    ensures |out| == |other| && forall i :: 0 <= i < |out| ==> KeyOf(out[i]) == KeyOf(other[i])
  {
    hide IsListing;
    SameImagesSameListing(images, others, other);
    NotShorter(images, out, other);
    NotShorter(images, other, out);
    KeysAgree(images, out, other, |out|);
  }

  lemma {:induction false} MergeWithout(results: seq<seq<Image>>, k: nat)
    requires k < |results|
    ensures multiset(Merge(results)) == multiset(Merge(Without(results, k))) + multiset(results[k])
    decreases |results|
  {
    var n := |results| - 1;
    var without := Without(results, k);
    if k == n {
      assert without == results[..n];
    } else {
      MergeWithout(results[..n], k);
      assert without[..|without| - 1] == Without(results[..n], k);
      assert without[|without| - 1] == results[n];
    }
  }

  lemma {:induction false} MergeIgnoresOrder(results: seq<seq<Image>>, permuted: seq<seq<Image>>)
    requires multiset(results) == multiset(permuted)
    ensures multiset(Merge(results)) == multiset(Merge(permuted))
    decreases |results|
  {
    assert |results| == |multiset(results)| && |permuted| == |multiset(permuted)|;
    if results != [] {
      var k := MatchLast(results, permuted);
      MergeIgnoresOrder(results[..|results| - 1], Without(permuted, k));
      MergeWithout(permuted, k);
    }
  }

  /** The same for the repositories' answers: any two completion orders list the same keys. */
  lemma CompletionOrderDoesNotShow(
    results: seq<seq<Image>>, permuted: seq<seq<Image>>, out: seq<Image>, other: seq<Image>)
    requires multiset(results) == multiset(permuted)
    requires IsListing(Merge(results), out) && IsListing(Merge(permuted), other)
    ensures |out| == |other| && forall i :: 0 <= i < |out| ==> KeyOf(out[i]) == KeyOf(other[i])
  {
    hide IsListing;
    MergeIgnoresOrder(results, permuted);
    ListingIgnoresCompletionOrder(Merge(results), Merge(permuted), out, other);
  }
}
