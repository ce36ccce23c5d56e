/** The draggable "Trending Styles" strip
    (`components/TrendingStyles/TrendingStyles.jsx`): how many cards the
    window width allows, dragging with a 5-pixel threshold, snapping to the
    nearest card on release, and the click that only navigates when the
    pointer barely moved. Pixel positions are integers. */
module Carousel {
  import opened Options

  /** `handleResize`: the number of cards for a window width. */
  function VisibleCards(width: int): (n: nat)
    ensures n in {1, 2, 4, 5}
  {
    if width >= 1200 then 5
    else if width >= 992 then 4
    else if width >= 768 then 2
    else 1
  }

  /** A wider window never shows fewer cards, and each breakpoint is where
      the count changes. */
  lemma VisibleCardsMonotone(a: int, b: int)
    ensures a <= b ==> VisibleCards(a) <= VisibleCards(b)
    ensures VisibleCards(1199) < VisibleCards(1200) && VisibleCards(991) < VisibleCards(992)
    ensures VisibleCards(767) < VisibleCards(768)
  {
  }

  const DragThreshold := 5
  const Gap := 16

  function Abs(x: int): nat {
    if x < 0 then -x else x
  }

  /** `Math.round(pos / full)` for a positive card pitch: ties go up. */
  function NearestCard(pos: int, full: int): int
    requires full > 0
  {
    (2 * pos + full) / (2 * full)
  }

  /** The position `nearestCardIndex * cardFullWidth` snaps to. */
  function Snap(pos: int, full: int): int
    requires full > 0
  {
    NearestCard(pos, full) * full
  }

  /** The snapped position is a whole number of cards, within half a card of
      where the strip was (a tie goes to the next card). */
  lemma SnapBounds(pos: int, full: int)
    requires full > 0
    ensures Snap(pos, full) % full == 0
    ensures -full <= 2 * (pos - Snap(pos, full)) < full
  {
    var m := 2 * full;
    var a := 2 * pos + full;
    var k := a / m;
    var r := a % m;
    assert a == m * k + r && 0 <= r < m;
    assert 2 * (pos - k * full) == r - full;
    DivModUnique(k * full, full, k, 0);
  }

  /** No card boundary is closer to where the strip was. */
  lemma SnapIsNearest(pos: int, full: int, j: int)
    requires full > 0
    ensures Abs(pos - Snap(pos, full)) <= Abs(pos - j * full)
  {
    var k := NearestCard(pos, full);
    var d := pos - k * full;
    SnapBounds(pos, full);
    assert pos - j * full == d + (k - j) * full;
    if j < k {
      MulAtLeast(k - j, full);
    } else if j > k {
      MulAtLeast(j - k, full);
    }
  }

  lemma MulAtLeast(a: int, b: int)
    requires a >= 1 && b > 0
    ensures a * b >= b
  {
    assert a * b == (a - 1) * b + b;
  }

  /** A strip already on a card boundary stays there. */
  lemma SnapIdempotent(pos: int, full: int)
    requires full > 0
    ensures Snap(Snap(pos, full), full) == Snap(pos, full)
  {
    var k := NearestCard(pos, full);
    assert 2 * (k * full) + full == (2 * full) * k + full;
    DivModUnique(2 * (k * full) + full, 2 * full, k, full);
  }

  /** Euclidean division has one quotient and one remainder. */
  lemma DivModUnique(a: int, b: int, q: int, r: int)
    requires b > 0 && 0 <= r < b && a == b * q + r
    ensures a / b == q && a % b == r
  {
    var q', r' := a / b, a % b;
    assert b * q' + r' == b * q + r;
    assert b * (q - q') == r' - r;
    if q' < q {
      MulAtLeast(q - q', b);
    } else if q' > q {
      MulAtLeast(q' - q, b);
    }
  }

  class Strip {
    /** Whether `scrollRef.current` exists: the strip is rendered. */
    var mounted: bool
    var clickStarted: bool
    var isDragging: bool
    var startX: int
    /** The scroll position captured when the press began. */
    var scrollLeft: int
    var moveDistance: nat
    var visibleCards: nat
    /** The strip's own `scrollLeft`, which the handlers write. */
    var position: int

    constructor ()
      ensures !mounted && !clickStarted && !isDragging && startX == 0 && scrollLeft == 0
      ensures moveDistance == 0 && visibleCards == 5 && position == 0
    {
      mounted, clickStarted, isDragging := false, false, false;
      startX, scrollLeft, moveDistance := 0, 0, 0;
      visibleCards, position := 5, 0;
    }

    /** The first effect: `handleResize()` runs while the spinner is still
        shown, so the count keeps its initial 5; the strip is rendered once
        loading ends. */
    method Initialize(width: int)
      modifies this`mounted, this`visibleCards
      ensures mounted
      ensures old(mounted) ==> visibleCards == VisibleCards(width)
      ensures !old(mounted) ==> visibleCards == old(visibleCards)
    {
      Resize(width);
      mounted := true;
    }

    /** `handleResize`; nothing happens before the strip is rendered. */
    method Resize(width: int)
      modifies this`visibleCards
      ensures visibleCards == if mounted then VisibleCards(width) else old(visibleCards)
    {
      if !mounted {
        return;
      }
      visibleCards := VisibleCards(width);
    }

    /** `handleMouseDown` and `handleTouchStart` at page x. */
    method Press(x: int)
      modifies this`clickStarted, this`startX, this`scrollLeft, this`moveDistance
      ensures mounted ==> clickStarted && startX == x && scrollLeft == position && moveDistance == 0
      ensures !mounted ==> clickStarted == old(clickStarted) && startX == old(startX)
                           && scrollLeft == old(scrollLeft) && moveDistance == old(moveDistance)
    {
      if !mounted {
        return;
      }
      clickStarted := true;
      startX := x;
      scrollLeft := position;
      moveDistance := 0;
    }

    /** `handleMouseMove` and `handleTouchMove` at page x: ignored unless a
        press is under way; beyond the threshold the strip follows the
        pointer from where the press began. */
    method Move(x: int)
      modifies this`moveDistance, this`isDragging, this`position
      ensures !(clickStarted && mounted) ==>
                moveDistance == old(moveDistance) && isDragging == old(isDragging) && position == old(position)
      ensures clickStarted && mounted ==> moveDistance == Abs(x - startX)
      ensures clickStarted && mounted && Abs(x - startX) > DragThreshold ==>
                isDragging && position == scrollLeft + (startX - x)
      ensures clickStarted && mounted && Abs(x - startX) <= DragThreshold ==>
                isDragging == old(isDragging) && position == old(position)
    {
      if !clickStarted || !mounted {
        return;
      }
      var distance := Abs(x - startX);
      moveDistance := distance;
      if distance > DragThreshold {
        if !isDragging {
          isDragging := true;
        }
        var walk := startX - x;
        position := scrollLeft + walk;
      }
    }

    /** `handleMouseUp` and `handleTouchEnd`; `cardWidth` is the first card's
        `offsetWidth`, None when there is no card. */
    method Release(cardWidth: Option<nat>)
      modifies this`clickStarted, this`isDragging, this`position
      ensures !clickStarted && !isDragging
      ensures !mounted ==> position == old(position)
      ensures mounted ==>
                var full := (if cardWidth.Some? then cardWidth.value else 0) + Gap;
                full > 0 && position == Snap(old(position), full)
    {
      clickStarted := false;
      isDragging := false;
      if mounted {
        var width := if cardWidth.Some? then cardWidth.value else 0;
        var full := width + Gap;
        if full > 0 {
          position := Snap(position, full);
        }
      }
    }

    /** `handleMouseLeave`: the press ends without snapping. */
    method Leave()
      modifies this`clickStarted, this`isDragging
      ensures !clickStarted && !isDragging
    {
      clickStarted := false;
      isDragging := false;
    }

    /** `handleProductClick`: the product page, unless the click ended a drag. */
    method ProductClick(id: string) returns (target: Option<string>)
      ensures target.Some? <==> moveDistance <= DragThreshold
      ensures target.Some? ==> target.value == "/product/" + id
    {
      if moveDistance <= DragThreshold {
        target := Some("/product/" + id);
      } else {
        target := None;
      }
    }
  }
}
