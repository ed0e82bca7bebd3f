/** The product page (src/components/product/product_detail.tsx): the slug taken from the
    route, the fetch of the product and its outcome, the choice of the main image, the
    image URL rule, and the grouping of the specifications into three headed lists.
    The product service call is the parameter `outcome`; the storage URL is a parameter. */
module ProductDetail {
  import opened Wrappers
  import opened Text
  import opened Http

  // ---------------------------------------------------------------------------
  // Data

  datatype Image = Image(url: string, isPrimary: bool)

  datatype Spec = Spec(name: string, value: string)

  /** The fields of a product that the page's logic reads. */
  datatype Detail = Detail(images: seq<Image>, specs: seq<Spec>)

  /** What `productService.getDetailBySlug` came to: it threw, or it answered an envelope. */
  datatype FetchOutcome = Threw | Answered(success: bool, data: Option<Detail>, error: Option<string>)

  /** The route parameter `params.slug`: absent, one string, or the segments of a catch-all route. */
  datatype SlugParam = Absent | Single(text: string) | Segments(items: seq<string>)

  datatype PageState = PageState(product: Option<Detail>, loading: bool, error: Option<string>, mainImageIndex: int)

  // ---------------------------------------------------------------------------
  // Slug

  /** The slug the effect settles on: a string trimmed, or the first segment trimmed. */
  function NormalizeSlug(p: SlugParam): (r: Option<string>)
    ensures r.Some? ==> r.value == [] || (!IsWhiteSpace(r.value[0]) && !IsWhiteSpace(r.value[|r.value| - 1]))
    ensures r.None? <==> p.Absent? || (p.Segments? && p.items == [])
    ensures p.Single? ==> r == Some(Trim(p.text))
    ensures p.Segments? && p.items != [] ==> r == Some(Trim(p.items[0]))
  {
    match p
    case Absent => None
    case Single(text) => Some(Trim(text))
    case Segments(items) => if |items| > 0 then Some(Trim(items[0])) else None
  }

  /** The slug that is fetched, when `!slug` does not hold. */
  function SlugToFetch(p: SlugParam): (r: Option<string>)
    ensures r.Some? ==> r.value != "" && !IsWhiteSpace(r.value[0]) && !IsWhiteSpace(r.value[|r.value| - 1])
    ensures r.Some? ==> r == NormalizeSlug(p)
    ensures r.None? <==> NormalizeSlug(p).None? || NormalizeSlug(p) == Some("")
  {
    var slug := NormalizeSlug(p);
    if Truthy(slug) then slug else None
  }

  /** Only the first segment counts, and only its surrounding white space goes. */
  lemma FirstSegmentTrimmed()
    ensures SlugToFetch(Segments([" phone-x\n", "extra"])) == Some("phone-x")
  {
    var s := " phone-x\n";
    assert s[1..1 + |"phone-x"|] == "phone-x";
    assert s[..1] == " " && s[1 + |"phone-x"|..] == "\n";
    TrimUnique(s, "phone-x", 1);
  }

  /** A product is fetched exactly when the string, or the first segment, is not blank. */
  lemma SlugFetchedIff(p: SlugParam)
    ensures SlugToFetch(p).Some? <==>
              || (p.Single? && !Blank(p.text))
              || (p.Segments? && |p.items| > 0 && !Blank(p.items[0]))
  {
  }

  /** The initial state: nothing loaded yet, loading, no error, the first image. */
  function Initial(): PageState {
    PageState(None, true, None, 0)
  }

  /** The effect for a defined route parameter: an unusable slug is an error and ends the
      loading; a usable one starts a fetch, clearing the error. */
  function Begin(s: PageState, p: SlugParam): (t: PageState)
    requires !p.Absent?
    ensures SlugToFetch(p).None? ==> t == s.(error := Some("Invalid product URL"), loading := false)
    ensures SlugToFetch(p).Some? ==> t == s.(loading := true, error := None)
  {
    if SlugToFetch(p).None? then s.(error := Some("Invalid product URL"), loading := false)
    else s.(loading := true, error := None)
  }

  /** The `try`/`catch`/`finally` of `fetchProduct`. */
  function Settle(s: PageState, outcome: FetchOutcome): (t: PageState)
    ensures !t.loading
    ensures outcome.Answered? && outcome.success && outcome.data.Some? ==>
              t.product == outcome.data && t.mainImageIndex == 0 && t.error == s.error
    ensures !(outcome.Answered? && outcome.success && outcome.data.Some?) ==>
              t.product == s.product && t.mainImageIndex == s.mainImageIndex
              && t.error.Some? && t.error.value != ""
    ensures outcome.Threw? ==> t.error == Some("Failed to load product")
  {
    match outcome
    case Threw => s.(error := Some("Failed to load product"), loading := false)
    case Answered(success, data, error) =>
      if success && data.Some? then s.(product := data, mainImageIndex := 0, loading := false)
      else s.(error := Some(if Truthy(error) then error.value else "Product not found"), loading := false)
  }

  /** A failed answer reports the backend's message when it has a non-empty one. */
  lemma FailureMessage(s: PageState, success: bool, data: Option<Detail>, error: Option<string>)
    requires !(success && data.Some?)
    ensures Settle(s, Answered(success, data, error)).error
         == Some(if error.Some? && error.value != "" then error.value else "Product not found")
  {
  }

  /** A fetch started from a usable slug always ends with loading off and either a product
      shown from its first image or a non-empty error. */
  lemma FetchAlwaysSettles(s: PageState, p: SlugParam, outcome: FetchOutcome)
    requires SlugToFetch(p).Some?
    ensures var t := Settle(Begin(s, p), outcome);
            && !t.loading
            && ((t.product.Some? && t.mainImageIndex == 0 && t.error.None?) || (t.error.Some? && t.error.value != ""))
  {
  }

  // ---------------------------------------------------------------------------
  // Images

  /** `images.find(img => img.is_primary)` */
  function FirstPrimary(images: seq<Image>): (r: Option<Image>)
    ensures r.Some? ==> r.value.isPrimary && r.value in images
    ensures r.None? ==> forall i :: 0 <= i < |images| ==> !images[i].isPrimary
  {
    if images == [] then None
    else if images[0].isPrimary then Some(images[0])
    else FirstPrimary(images[1..])
  }

  /** `images[mainImageIndex] || primaryImage || images[0]` */
  function MainImage(images: seq<Image>, index: int): (r: Option<Image>)
    ensures r.None? <==> images == []
    ensures 0 <= index < |images| ==> r == Some(images[index])
    ensures r.Some? ==> r.value in images
    ensures !(0 <= index < |images|) && FirstPrimary(images).None? && images != [] ==> r == Some(images[0])
  {
    if 0 <= index < |images| then Some(images[index])
    else if FirstPrimary(images).Some? then FirstPrimary(images)
    else if |images| > 0 then Some(images[0])
    else None
  }

  /** With no image at the index, the first primary image wins over the first image. */
  lemma FallbackPrefersPrimary(images: seq<Image>, index: int, k: nat)
    requires !(0 <= index < |images|)
    requires k < |images| && images[k].isPrimary && forall j :: 0 <= j < k ==> !images[j].isPrimary
    ensures MainImage(images, index) == Some(images[k])
  {
    FirstPrimaryAt(images, k);
  }

  lemma {:induction false} FirstPrimaryAt(images: seq<Image>, k: nat)
    requires k < |images| && images[k].isPrimary && forall j :: 0 <= j < k ==> !images[j].isPrimary
    ensures FirstPrimary(images) == Some(images[k])
    decreases k
  {
    if k > 0 {
      FirstPrimaryAt(images[1..], k - 1);
    }
  }

  /** `getImageUrl`: absolute URLs are kept, anything else is put after the storage URL. */
  function ImageUrl(storageUrl: string, url: string): (r: string)
    ensures StartsWith(url, "http") ==> r == url
    ensures !StartsWith(url, "http") ==> StartsWith(r, storageUrl) && r[|storageUrl|..] == url
  {
    if StartsWith(url, "http") then url else storageUrl + url
  }

  /** When the storage URL is itself absolute, applying the rule twice changes nothing. */
  lemma ImageUrlIdempotent(storageUrl: string, url: string)
    requires StartsWith(storageUrl, "http")
    ensures ImageUrl(storageUrl, ImageUrl(storageUrl, url)) == ImageUrl(storageUrl, url)
  {
    if !StartsWith(url, "http") {
      var r := storageUrl + url;
      assert r[..4] == storageUrl[..4];
    }
  }

  // ---------------------------------------------------------------------------
  // Specifications

  datatype Group = General | Processor | Other

  /** The heading of each group, in the order the page shows them. */
  function Heading(g: Group): string {
    match g
    case General => "General"
    case Processor => "Processor and Performance"
    case Other => "Other"
  }

  /** The group of a specification: a case-insensitive substring test on its name, the
      first matching rule winning. */
  function Classify(name: string): Group {
    var n := ToLower(name);
    if Contains(n, "brand") || Contains(n, "series") || Contains(n, "operating") then General
    else if Contains(n, "processor") || Contains(n, "core") then Processor
    else Other
  }

  /** Only letter case is ignored: lower-casing the name first changes no group. */
  lemma ClassifyIgnoresCase(name: string)
    ensures Classify(ToLower(name)) == Classify(name)
  {
    ToLowerIdempotent(name);
  }

  /** A name matching both rules goes to the first group. */
  lemma FirstRuleWins(a: string, b: string, c: string)
    ensures Classify(a + "brand" + b + "core" + c) == General
  {
    var name := a + "brand" + b + "core" + c;
    assert ToLower(name) == ToLower(a) + "brand" + ToLower(b + "core" + c);
    ContainsInMiddle(ToLower(a), "brand", ToLower(b + "core" + c));
  }

  /** The specifications of one group, in their original order. */
  function InGroup(specs: seq<Spec>, g: Group): (r: seq<Spec>)
    ensures |r| <= |specs|
    decreases |specs|
  {
    if specs == [] then []
    else
      var last := specs[|specs| - 1];
      InGroup(specs[..|specs| - 1], g) + (if Classify(last.name) == g then [last] else [])
  }

  /** The `forEach` that pushes every specification into its group's list. */
  method GroupSpecs(specs: seq<Spec>) returns (general: seq<Spec>, processor: seq<Spec>, other: seq<Spec>)
    ensures general == InGroup(specs, General)
    ensures processor == InGroup(specs, Processor)
    ensures other == InGroup(specs, Other)
  {
    general, processor, other := [], [], [];
    var i := 0;
    while i < |specs|
      invariant 0 <= i <= |specs|
      invariant general == InGroup(specs[..i], General)
      invariant processor == InGroup(specs[..i], Processor)
      invariant other == InGroup(specs[..i], Other)
    {
      var spec := specs[i];
      assert specs[..i + 1][..i] == specs[..i];
      var name := ToLower(spec.name);
      if Contains(name, "brand") || Contains(name, "series") || Contains(name, "operating") {
        general := general + [spec];
      } else if Contains(name, "processor") || Contains(name, "core") {
        processor := processor + [spec];
      } else {
        other := other + [spec];
      }
      i := i + 1;
    }
    assert specs[..i] == specs;
  }

  /** Every specification lands in exactly one group: the three lists together are the
      specifications, counted with multiplicity. */
  lemma {:induction false} GroupsPartition(specs: seq<Spec>)
    ensures multiset(InGroup(specs, General)) + multiset(InGroup(specs, Processor)) + multiset(InGroup(specs, Other))
         == multiset(specs)
    decreases |specs|
  {
    if specs != [] {
      var init := specs[..|specs| - 1];
      var last := specs[|specs| - 1];
      GroupsPartition(init);
      var c := LastGroup(specs);
      PartitionStep(specs, c, InGroup(specs, General), InGroup(specs, Processor), InGroup(specs, Other),
                    InGroup(init, General), InGroup(init, Processor), InGroup(init, Other));
    }
  }

  /** The group the last specification joins, and the three lists one step earlier. */
  lemma LastGroup(specs: seq<Spec>) returns (c: Group)
    requires specs != []
    ensures var init, last := specs[..|specs| - 1], specs[|specs| - 1];
            && InGroup(specs, General) == InGroup(init, General) + (if c == General then [last] else [])
            && InGroup(specs, Processor) == InGroup(init, Processor) + (if c == Processor then [last] else [])
            && InGroup(specs, Other) == InGroup(init, Other) + (if c == Other then [last] else [])
  {
    c := Classify(specs[|specs| - 1].name);
    InGroupStep(specs, General);
    InGroupStep(specs, Processor);
    InGroupStep(specs, Other);
  }

  /** One more specification, joining the list of group `c`, keeps the three lists a
      partition. */
  lemma PartitionStep(specs: seq<Spec>, c: Group, general: seq<Spec>, processor: seq<Spec>, other: seq<Spec>,
                      general0: seq<Spec>, processor0: seq<Spec>, other0: seq<Spec>)
    requires specs != []
    requires multiset(general0) + multiset(processor0) + multiset(other0) == multiset(specs[..|specs| - 1])
    requires general == general0 + (if c == General then [specs[|specs| - 1]] else [])
    requires processor == processor0 + (if c == Processor then [specs[|specs| - 1]] else [])
    requires other == other0 + (if c == Other then [specs[|specs| - 1]] else [])
    ensures multiset(general) + multiset(processor) + multiset(other) == multiset(specs)
  {
    var init, last := specs[..|specs| - 1], specs[|specs| - 1];
    assert specs == init + [last];
    assert multiset(specs) == multiset(init) + multiset{last};
  }

  /** Grouping keeps the total number of specifications. */
  lemma GroupsCount(specs: seq<Spec>)
    ensures |InGroup(specs, General)| + |InGroup(specs, Processor)| + |InGroup(specs, Other)| == |specs|
  {
    GroupsPartition(specs);
    assert |multiset(specs)| == |specs|;
  }

  /** A specification is in a group's list exactly when it is one of the specifications and
      its name falls in that group. */
  lemma {:induction false} InGroupMembers(specs: seq<Spec>, g: Group, x: Spec)
    ensures x in InGroup(specs, g) <==> x in specs && Classify(x.name) == g
    decreases |specs|
  {
    if specs != [] {
      var init := specs[..|specs| - 1];
      var last := specs[|specs| - 1];
      InGroupMembers(init, g, x);
      assert specs == init + [last];
    }
  }

  /** The last specification joins the list of its own group only. */
  lemma InGroupStep(specs: seq<Spec>, g: Group)
    requires specs != []
    ensures var last := specs[|specs| - 1];
            InGroup(specs, g) == InGroup(specs[..|specs| - 1], g) + (if Classify(last.name) == g then [last] else [])
  {
  }

  /** Grouping keeps the order: the group of a concatenation is the concatenation of the groups. */
  lemma {:induction false} InGroupConcat(a: seq<Spec>, b: seq<Spec>, g: Group)
    ensures InGroup(a + b, g) == InGroup(a, g) + InGroup(b, g)
    decreases |b|
  {
    if b == [] {
      assert a + b == a;
    } else {
      var init := b[..|b| - 1];
      assert (a + b)[..|a + b| - 1] == a + init;
      InGroupConcat(a, init, g);
    }
  }

  /** No two groups share a heading. */
  lemma HeadingsDistinct(a: Group, b: Group)
    ensures Heading(a) == Heading(b) ==> a == b
  {
    assert |Heading(General)| == 7 && |Heading(Processor)| == 25 && |Heading(Other)| == 5;
  }

  /** The three headed lists, in the order the tab shows them. */
  function Headed(general: seq<Spec>, processor: seq<Spec>, other: seq<Spec>): seq<(string, seq<Spec>)> {
    [(Heading(General), general), (Heading(Processor), processor), (Heading(Other), other)]
  }

  /** The headed lists the specification tab shows: the non-empty groups, in their order. */
  function RenderedGroups(specs: seq<Spec>): (r: seq<(string, seq<Spec>)>)
    ensures forall i :: 0 <= i < |r| ==> |r[i].1| > 0
    ensures |r| <= 3
  {
    Nonempty(Headed(InGroup(specs, General), InGroup(specs, Processor), InGroup(specs, Other)))
  }

  function Nonempty(groups: seq<(string, seq<Spec>)>): (r: seq<(string, seq<Spec>)>)
    ensures |r| <= |groups|
    ensures forall i :: 0 <= i < |r| ==> |r[i].1| > 0
  {
    if groups == [] then []
    else (if |groups[0].1| > 0 then [groups[0]] else []) + Nonempty(groups[1..])
  }

  /** The list of group `g` among the three. */
  function ListOf(g: Group, general: seq<Spec>, processor: seq<Spec>, other: seq<Spec>): seq<Spec> {
    match g
    case General => general
    case Processor => processor
    case Other => other
  }

  /** Among the three headed lists, a heading is kept exactly when its list is not empty. */
  lemma HeadedShown(general: seq<Spec>, processor: seq<Spec>, other: seq<Spec>, g: Group)
    ensures var r := Nonempty(Headed(general, processor, other));
            (exists i :: 0 <= i < |r| && r[i].0 == Heading(g)) <==> |ListOf(g, general, processor, other)| > 0
  {
    var groups := Headed(general, processor, other);
    var gi := if g == General then 0 else if g == Processor then 1 else 2;
    assert groups[gi] == (Heading(g), ListOf(g, general, processor, other));
    NonemptyKeepsHeading(groups, Heading(g));
    forall j | 0 <= j < 3 && groups[j].0 == Heading(g)
      ensures j == gi
    {
      var h := if j == 0 then General else if j == 1 then Processor else Other;
      assert groups[j].0 == Heading(h);
      HeadingsDistinct(h, g);
    }
  }

  /** Dropping the empty lists keeps a heading exactly when some list under it is not empty. */
  lemma NonemptyKeepsHeading(groups: seq<(string, seq<Spec>)>, h: string)
    ensures var r := Nonempty(groups);
            (exists i :: 0 <= i < |r| && r[i].0 == h)
            <==> exists j :: 0 <= j < |groups| && groups[j].0 == h && |groups[j].1| > 0
  {
    if exists i :: 0 <= i < |Nonempty(groups)| && Nonempty(groups)[i].0 == h {
      var i :| 0 <= i < |Nonempty(groups)| && Nonempty(groups)[i].0 == h;
      KeptHeadingFrom(groups, i);
    }
    if exists j :: 0 <= j < |groups| && groups[j].0 == h && |groups[j].1| > 0 {
      var j :| 0 <= j < |groups| && groups[j].0 == h && |groups[j].1| > 0;
      KeptHeadingTo(groups, j);
    }
  }

  /** Every kept entry comes from a non-empty list with the same heading. */
  lemma {:induction false} KeptHeadingFrom(groups: seq<(string, seq<Spec>)>, i: nat)
    requires i < |Nonempty(groups)|
    ensures exists j :: 0 <= j < |groups| && groups[j] == Nonempty(groups)[i]
    decreases |groups|
  {
    var rest := groups[1..];
    if |groups[0].1| > 0 {
      assert Nonempty(groups) == [groups[0]] + Nonempty(rest);
      if i == 0 {
        assert groups[0] == Nonempty(groups)[0];
      } else {
        KeptHeadingFrom(rest, i - 1);
        var j :| 0 <= j < |rest| && rest[j] == Nonempty(rest)[i - 1];
        assert groups[j + 1] == Nonempty(groups)[i];
      }
    } else {
      assert Nonempty(groups) == Nonempty(rest);
      KeptHeadingFrom(rest, i);
      var j :| 0 <= j < |rest| && rest[j] == Nonempty(rest)[i];
      assert groups[j + 1] == Nonempty(groups)[i];
    }
  }

  /** Every non-empty list is kept. */
  lemma {:induction false} KeptHeadingTo(groups: seq<(string, seq<Spec>)>, j: nat)
    requires j < |groups| && |groups[j].1| > 0
    ensures exists i :: 0 <= i < |Nonempty(groups)| && Nonempty(groups)[i] == groups[j]
    decreases |groups|
  {
    var rest := groups[1..];
    if j == 0 {
      assert Nonempty(groups) == [groups[0]] + Nonempty(rest);
      assert Nonempty(groups)[0] == groups[0];
    } else {
      KeptHeadingTo(rest, j - 1);
      var i :| 0 <= i < |Nonempty(rest)| && Nonempty(rest)[i] == rest[j - 1];
      var head := if |groups[0].1| > 0 then [groups[0]] else [];
      assert Nonempty(groups) == head + Nonempty(rest);
      assert Nonempty(groups)[i + |head|] == groups[j];
    }
  }

  /** A group's heading is shown exactly when some specification belongs to it. */
  lemma HeadingShownIff(specs: seq<Spec>, g: Group)
    ensures (exists i :: 0 <= i < |RenderedGroups(specs)| && RenderedGroups(specs)[i].0 == Heading(g))
        <==> exists k :: 0 <= k < |specs| && Classify(specs[k].name) == g
  {
    var general, processor, other := InGroup(specs, General), InGroup(specs, Processor), InGroup(specs, Other);
    HeadedShown(general, processor, other, g);
    var r := RenderedGroups(specs);
    assert r == Nonempty(Headed(general, processor, other));
    assert ListOf(g, general, processor, other) == InGroup(specs, g) by {
      match g
      case General =>
      case Processor =>
      case Other =>
    }
    InGroupNonEmptyIff(specs, g);
    assert (exists i :: 0 <= i < |r| && r[i].0 == Heading(g)) <==> |InGroup(specs, g)| > 0;
  }

  lemma {:induction false} InGroupNonEmptyIff(specs: seq<Spec>, g: Group)
    ensures |InGroup(specs, g)| > 0 <==> exists k :: 0 <= k < |specs| && Classify(specs[k].name) == g
    decreases |specs|
  {
    if specs != [] {
      var init := specs[..|specs| - 1];
      InGroupNonEmptyIff(init, g);
      if exists k :: 0 <= k < |init| && Classify(init[k].name) == g {
        var k :| 0 <= k < |init| && Classify(init[k].name) == g;
        assert specs[k] == init[k];
      }
      if exists k :: 0 <= k < |specs| && Classify(specs[k].name) == g {
        var k :| 0 <= k < |specs| && Classify(specs[k].name) == g;
        if k < |init| {
          assert init[k] == specs[k];
        }
      }
    }
  }

  // ---------------------------------------------------------------------------
  // The component

  class ProductPage {
    var product: Option<Detail>
    var loading: bool
    var error: Option<string>
    var mainImageIndex: int

    function State(): PageState
      reads this
    {
      PageState(product, loading, error, mainImageIndex)
    }

    constructor ()
      ensures State() == Initial()
    {
      product, loading, error, mainImageIndex := None, true, None, 0;
    }

    /** The effect run when the route parameter changes; returns the slug to fetch, if any. */
    method OnSlugParam(p: SlugParam) returns (request: Option<string>)
      modifies this
      ensures p.Absent? ==> request.None? && State() == old(State())
      ensures !p.Absent? ==> request == SlugToFetch(p) && State() == Begin(old(State()), p)
    {
      if p.Absent? {
        return None;
      }
      var slug := NormalizeSlug(p);
      if slug.None? || slug.value == "" {
        error := Some("Invalid product URL");
        loading := false;
        return None;
      }
      loading := true;
      error := None;
      request := slug;
    }

    /** `fetchProduct` after the service call. */
    method FinishFetch(outcome: FetchOutcome)
      modifies this
      ensures State() == Settle(old(State()), outcome)
    {
      match outcome {
        case Threw =>
          error := Some("Failed to load product");
        case Answered(success, data, message) =>
          if success && data.Some? {
            product := data;
            mainImageIndex := 0;
          } else {
            error := Some(if message.Some? && message.value != "" then message.value else "Product not found");
          }
      }
      loading := false;
    }

    /** A thumbnail click. */
    method SelectImage(index: int)
      modifies this
      ensures State() == old(State()).(mainImageIndex := index)
    {
      mainImageIndex := index;
    }
  }
}
