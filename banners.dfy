/** The home-page banner carousel (src/components/banners_client.tsx): a current index into
    a fixed list of banners, three visible entries starting at it, clicks that bring an
    entry to the front, and a timed advance while the pointer is elsewhere. Banners are
    opaque, so they are a type parameter; the timer is left to the caller. */
module Banners {
  import opened Wrappers

  /** A visible entry: the banner and its place among the three (`position`). */
  datatype Slot<Banner> = Slot(banner: Banner, position: nat)

  /** `nextSlide` on the index: one step forward, wrapping at the end; nothing with no banners. */
  function NextIndex(index: int, count: nat): (r: int)
    ensures count > 0 && 0 <= index ==> 0 <= r < count
    ensures count == 0 ==> r == index
  {
    if count > 0 then (index + 1) % count else index
  }

  /** `k` timer ticks in a row. */
  function Advance(index: int, count: nat, k: nat): int
    decreases k
  {
    if k == 0 then index else NextIndex(Advance(index, count, k - 1), count)
  }

  /** After `k` ticks the index is `k` places further, modulo the banner count. */
  lemma {:induction false} AdvanceIsModular(index: int, count: nat, k: nat)
    requires count > 0 && 0 <= index < count
    ensures Advance(index, count, k) == (index + k) % count
    decreases k
  {
    if k == 0 {
      ModSmall(index, count);
    } else {
      AdvanceIsModular(index, count, k - 1);
      var prev := Advance(index, count, k - 1);
      assert prev == (index + k - 1) % count;
      assert Advance(index, count, k) == (prev + 1) % count;
      ModAddOne(index + k - 1, count);
    }
  }

  /** After as many ticks as there are banners the carousel is back where it started. */
  lemma FullCycle(index: int, count: nat)
    requires count > 0 && 0 <= index < count
    ensures Advance(index, count, count) == index
  {
    AdvanceIsModular(index, count, count);
    ModAddCount(index, count);
    ModSmall(index, count);
  }

  // Euclidean remainder facts, kept to linear steps.

  lemma ModSmall(x: int, c: int)
    requires 0 <= x < c
    ensures x % c == x
  {
  }

  lemma MulAtLeast(c: int, k: int)
    requires c > 0 && k >= 1
    ensures c * k >= c
  {
  }

  lemma ModUnique(z: int, c: int, m: int, r: int)
    requires c > 0 && z == c * m + r && 0 <= r < c
    ensures z % c == r
  {
    var m', r' := z / c, z % c;
    assert c * (m - m') == r' - r;
    assert c * (m' - m) == r - r';
    if m > m' {
      MulAtLeast(c, m - m');
    } else if m < m' {
      MulAtLeast(c, m' - m);
    }
  }

  lemma ModAddCount(y: int, c: int)
    requires c > 0
    ensures (y + c) % c == y % c
  {
    var d, r := y / c, y % c;
    assert y + c == c * (d + 1) + r;
    ModUnique(y + c, c, d + 1, r);
  }

  lemma {:induction false} ModAddOne(x: nat, c: int)
    requires c > 0
    ensures (x % c + 1) % c == (x + 1) % c
    decreases x
  {
    if x >= c {
      ModAddOne(x - c, c);
      ModAddCount(x - c, c);
      ModAddCount(x + 1 - c, c);
    } else if x + 1 < c {
      ModSmall(x, c);
      ModSmall(x + 1, c);
    } else {
      ModSmall(x, c);
      ModAddCount(0, c);
    }
  }

  /** `getVisibleBanners`: entry `i` is the banner `i` places after the current one,
      wrapping, so with fewer than three banners some repeat. */
  function VisibleBanners<Banner>(banners: seq<Banner>, current: nat): (r: seq<Slot<Banner>>)
    requires |banners| > 0
    ensures |r| == 3
  {
    seq(3, i requires 0 <= i < 3 => Slot(banners[(current + i) % |banners|], i))
  }

  /** The active entry is entry 0, which is the current banner. */
  lemma ActiveIsCurrent<Banner>(banners: seq<Banner>, current: nat)
    requires current < |banners|
    ensures VisibleBanners(banners, current)[0] == Slot(banners[current], 0)
  {
  }

  /** Entries a whole number of turns apart show the same banner: with one banner all three
      entries are equal, with two the first and the last are. */
  lemma VisibleRepeats<Banner>(banners: seq<Banner>, current: nat, i: nat, j: nat)
    requires |banners| > 0 && i < j < 3 && (j - i) % |banners| == 0
    ensures VisibleBanners(banners, current)[i].banner == VisibleBanners(banners, current)[j].banner
  {
    var n := |banners|;
    assert n <= j - i;
    if n == 1 {
      assert (current + i) % n == 0 == (current + j) % n;
    } else {
      assert n == 2 && j == i + 2;
      ModAddCount(current + i, n);
    }
  }

  /** Every banner in the list shows up among the three when there are at most three. */
  lemma SmallListAllVisible<Banner>(banners: seq<Banner>, current: nat, k: nat)
    requires current < |banners| <= 3 && k < |banners|
    ensures exists i :: 0 <= i < 3 && VisibleBanners(banners, current)[i].banner == banners[k]
  {
    var n := |banners|;
    var i := if current <= k then k - current else k + n - current;
    ModSmall(k, n);
    if current > k {
      ModAddCount(k, n);
    }
    assert VisibleBanners(banners, current)[i].banner == banners[k];
  }

  /** The click handler of entry `idx`: the active entry does nothing, another one moves the
      carousel to the banner it shows. */
  function ClickTarget(current: nat, idx: nat, count: nat): (r: Option<nat>)
    requires count > 0
    ensures r.Some? <==> idx != 0
    ensures r.Some? ==> r.value < count
  {
    if idx == 0 then None else Some((current + idx) % count)
  }

  /** Clicking an entry makes its banner the first visible one. */
  lemma ClickBringsToFront<Banner>(banners: seq<Banner>, current: nat, idx: nat)
    requires |banners| > 0 && 0 < idx < 3
    ensures var target := ClickTarget(current, idx, |banners|).value;
            VisibleBanners(banners, target)[0].banner == VisibleBanners(banners, current)[idx].banner
  {
    var n := |banners|;
    var target := (current + idx) % n;
    assert ClickTarget(current, idx, n) == Some(target);
    ModSmall(target, n);
    assert VisibleBanners(banners, target)[0].banner == banners[target];
    assert VisibleBanners(banners, current)[idx].banner == banners[target];
  }

  /** The timer runs only when the pointer is away and there is more than one banner. */
  predicate ShouldAutoAdvance(isHovered: bool, count: nat) {
    !isHovered && count > 1
  }

  /** With a single banner, a tick would not move anything, and none is scheduled. */
  lemma SingleBannerStays(index: int, isHovered: bool)
    requires 0 <= index < 1
    ensures !ShouldAutoAdvance(isHovered, 1) && NextIndex(index, 1) == index
  {
  }

  class Carousel<Banner> {
    const banners: seq<Banner>
    var currentIndex: int
    var isHovered: bool

    /** The index is always a position in the list (0 when the list is empty). */
    predicate Valid()
      reads this
    {
      if |banners| > 0 then 0 <= currentIndex < |banners| else currentIndex == 0
    }

    /** Nothing is rendered for an empty list. */
    predicate Renders()
      reads this
    {
      |banners| > 0
    }

    constructor (initialBanners: seq<Banner>)
      ensures banners == initialBanners && currentIndex == 0 && !isHovered
      ensures Valid()
    {
      banners := initialBanners;
      currentIndex := 0;
      isHovered := false;
    }

    method NextSlide()
      requires Valid()
      modifies this
      ensures currentIndex == NextIndex(old(currentIndex), |banners|)
      ensures isHovered == old(isHovered)
      ensures Valid()
    {
      if |banners| > 0 {
        currentIndex := (currentIndex + 1) % |banners|;
      }
    }

    /** Called by the dots with their own index and by a click with `ClickTarget`, both
        positions in the list. */
    method GoToSlide(index: int)
      requires 0 <= index < |banners|
      modifies this
      ensures currentIndex == index && isHovered == old(isHovered)
      ensures Valid()
    {
      currentIndex := index;
    }

    method SetHovered(hovered: bool)
      modifies this
      ensures isHovered == hovered && currentIndex == old(currentIndex)
    {
      isHovered := hovered;
    }

    /** The `for` loop that fills the three visible entries. */
    method GetVisibleBanners() returns (visible: seq<Slot<Banner>>)
      requires Valid() && Renders()
      ensures visible == VisibleBanners(banners, currentIndex)
    {
      visible := [];
      var i := 0;
      while i < 3
        invariant 0 <= i <= 3
        invariant visible == VisibleBanners(banners, currentIndex)[..i]
      {
        var index := (currentIndex + i) % |banners|;
        visible := visible + [Slot(banners[index], i)];
        i := i + 1;
      }
    }
  }
}
