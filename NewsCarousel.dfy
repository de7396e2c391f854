/** The news carousel (src/components/NewsCarousel.tsx): one slide at a
    time, arrows and indicator dots, a horizontal drag gesture and an
    autoplay timer that pauses while a drag is in progress.

    The transitions are first given as functions on a `CarouselState`
    value; the class `Carousel` holds the component's three state cells and
    its handlers are proved to perform exactly those transitions. */
module NewsCarousel {
  import opened Types

  /** Which way the slide animation runs; it has no other effect. */
  datatype Direction = Left | Right

  datatype CarouselState = CarouselState(current: int, direction: Direction, dragging: bool)

  /** `useState(0)`, `useState("right")`, `useState(false)`. */
  const InitialState := CarouselState(0, Right, false)

  /** A drag must move further than this, either way, to change slide. */
  const DragThreshold := 50

  /** `current` indexes one of the `n` slides. */
  predicate InRange(s: CarouselState, n: nat) {
    0 <= s.current < n
  }

  /** nextSlide: the last slide is followed by the first. */
  function Next(s: CarouselState, n: nat): (r: CarouselState)
    ensures InRange(s, n) ==> InRange(r, n) && r.current == (s.current + 1) % n
    ensures r.direction == Right && r.dragging == s.dragging
  {
    s.(current := if s.current == n - 1 then 0 else s.current + 1, direction := Right)
  }

  /** prevSlide: the first slide is preceded by the last. */
  function Prev(s: CarouselState, n: nat): (r: CarouselState)
    ensures InRange(s, n) ==> InRange(r, n) && r.current == (s.current - 1 + n) % n
    ensures InRange(s, n) && s.current == 0 ==> r.current == n - 1
    ensures r.direction == Left && r.dragging == s.dragging
  {
    s.(current := if s.current == 0 then n - 1 else s.current - 1, direction := Left)
  }

  /** goToSlide(index): the animation runs rightwards only when moving to a
      higher index, so re-selecting the current slide animates leftwards. */
  function GoTo(s: CarouselState, index: int): (r: CarouselState)
    ensures r.current == index && r.dragging == s.dragging
    ensures r.direction == Right <==> index > s.current
    ensures index == s.current ==> r.direction == Left
  {
    s.(current := index, direction := if index > s.current then Right else Left)
  }

  /** onDragStart: only the dragging flag changes. */
  function DragStart(s: CarouselState): (r: CarouselState)
    ensures r.dragging && r.current == s.current && r.direction == s.direction
  {
    s.(dragging := true)
  }

  /** handleDragEnd: a swipe right past the threshold goes back, a swipe
      left past it goes forward, anything shorter keeps the slide; the
      gesture is over in every case. */
  function DragEnd(s: CarouselState, offset: int, n: nat): (r: CarouselState)
    ensures !r.dragging
    ensures offset > DragThreshold ==> r == Prev(s, n).(dragging := false)
    ensures offset < -DragThreshold ==> r == Next(s, n).(dragging := false)
    ensures -DragThreshold <= offset <= DragThreshold ==>
      r.current == s.current && r.direction == s.direction
    ensures InRange(s, n) ==> InRange(r, n)
  {
    var moved :=
      if offset > DragThreshold then Prev(s, n)
      else if offset < -DragThreshold then Next(s, n)
      else s;
    moved.(dragging := false)
  }

  /** One firing of the autoplay interval: the effect installs no timer
      while a drag is in progress, so a tick is then a no-op. */
  function Tick(s: CarouselState, n: nat): (r: CarouselState)
    ensures s.dragging ==> r == s
    ensures !s.dragging ==> r == Next(s, n)
  {
    if s.dragging then s else Next(s, n)
  }

  /** `k` consecutive nextSlide calls. */
  function Advance(s: CarouselState, k: nat, n: nat): (r: CarouselState)
    ensures r.dragging == s.dragging
    ensures k > 0 ==> r.direction == Right
    ensures InRange(s, n) ==> InRange(r, n)
  {
    if k == 0 then s else Next(Advance(s, k - 1, n), n)
  }

  /** `k` consecutive autoplay ticks. */
  function Ticks(s: CarouselState, k: nat, n: nat): (r: CarouselState)
    ensures r.dragging == s.dragging
    ensures InRange(s, n) ==> InRange(r, n)
  {
    if k == 0 then s else Tick(Ticks(s, k - 1, n), n)
  }

  /** prevSlide undoes nextSlide and nextSlide undoes prevSlide. */
  lemma NextPrevRoundTrip(s: CarouselState, n: nat)
    requires InRange(s, n)
    ensures Prev(Next(s, n), n).current == s.current
    ensures Next(Prev(s, n), n).current == s.current
  {
  }

  /** Euclidean division has one remainder: the one in `[0, n)`. */
  lemma ModUnique(x: int, n: nat, q: int, r: int)
    requires n > 0 && 0 <= r < n && x == q * n + r
    ensures x % n == r
  {
    var q', r' := x / n, x % n;
    assert x == n * q' + r';
    assert n * (q - q') == r' - r by {
      assert n * (q - q') == n * q - n * q';
    }
    if q - q' >= 1 {
      MulAtLeast(q - q', n);
    } else if q' - q >= 1 {
      MulAtLeast(q' - q, n);
    }
  }

  lemma MulAtLeast(a: int, n: nat)
    requires a >= 1
    ensures n * a >= n
  {
    assert n * a == n * (a - 1) + n;
  }

  lemma ModSucc(a: nat, n: nat)
    requires n > 0
    ensures (a % n + 1) % n == (a + 1) % n
  {
    var q, r := a / n, a % n;
    if r + 1 < n {
      ModUnique(a + 1, n, q, r + 1);
      ModUnique(r + 1, n, 0, r + 1);
    } else {
      ModUnique(a + 1, n, q + 1, 0);
      ModUnique(r + 1, n, 1, 0);
    }
  }

  /** After `k` nextSlide calls the index has moved `k` places round the ring. */
  lemma {:induction false} AdvanceIsRotation(s: CarouselState, k: nat, n: nat)
    requires InRange(s, n)
    ensures Advance(s, k, n).current == (s.current + k) % n
  {
    if k > 0 {
      AdvanceIsRotation(s, k - 1, n);
      ModSucc(s.current + k - 1, n);
    }
  }

  /** `n` nextSlide calls bring the carousel back to the slide it started on. */
  lemma {:induction false} AdvanceFullCycle(s: CarouselState, n: nat)
    requires InRange(s, n)
    ensures Advance(s, n, n) == s.(direction := Right)
  {
    AdvanceIsRotation(s, n, n);
    ModUnique(s.current + n, n, 1, s.current);
    var r := Advance(s, n, n);
    assert r.current == s.current && r.dragging == s.dragging && r.direction == Right;
  }

  /** While a drag is in progress, no number of timer firings moves the carousel. */
  lemma {:induction false} TicksWhileDragging(s: CarouselState, k: nat, n: nat)
    requires s.dragging
    ensures Ticks(s, k, n) == s
  {
    if k > 0 {
      TicksWhileDragging(s, k - 1, n);
    }
  }

  /** Once the drag is over, each tick is a nextSlide call. */
  lemma {:induction false} TicksWhileIdle(s: CarouselState, k: nat, n: nat)
    requires !s.dragging
    ensures Ticks(s, k, n) == Advance(s, k, n)
  {
    if k > 0 {
      TicksWhileIdle(s, k - 1, n);
    }
  }

  /** A drag that ends within the threshold leaves the slide where it was,
      however many timer firings come during the drag. */
  lemma ShortDragKeepsSlide(s: CarouselState, k: nat, offset: int, n: nat)
    requires -DragThreshold <= offset <= DragThreshold
    ensures DragEnd(Ticks(DragStart(s), k, n), offset, n) == s.(dragging := false)
  {
    TicksWhileDragging(DragStart(s), k, n);
  }

  /** With no slides the interval is still installed (the early return
      comes after the effect), and a tick moves `current` off every index:
      the range invariant needs at least one slide. */
  lemma EmptyCarouselLeavesRange()
    ensures !InRange(Tick(InitialState, 0), 0) && Tick(InitialState, 0).current == 1
  {
  }

  /** The component: `news` is its prop, the three variables its state. */
  class Carousel {
    const news: seq<NewsItem>
    var current: int
    var direction: Direction
    var dragging: bool

    function State(): CarouselState
      reads this
    {
      CarouselState(current, direction, dragging)
    }

    /** With at least one slide, `current` names one of them. */
    ghost predicate Valid()
      reads this
    {
      |news| == 0 || InRange(State(), |news|)
    }

    constructor (news: seq<NewsItem>)
      ensures this.news == news
      ensures Valid() && State() == InitialState
    {
      this.news := news;
      current, direction, dragging := 0, Right, false;
    }

    method NextSlide()
      requires Valid()
      modifies this
      ensures Valid() && State() == Next(old(State()), |news|)
    {
      direction := Right;
      current := if current == |news| - 1 then 0 else current + 1;
    }

    method PrevSlide()
      requires Valid()
      modifies this
      ensures Valid() && State() == Prev(old(State()), |news|)
    {
      direction := Left;
      current := if current == 0 then |news| - 1 else current - 1;
    }

    /** The indicator dots are drawn from `news`, so `index` is a slide. */
    method GoToSlide(index: int)
      requires Valid() && 0 <= index < |news|
      modifies this
      ensures Valid() && State() == GoTo(old(State()), index)
    {
      direction := if index > current then Right else Left;
      current := index;
    }

    method HandleDragStart()
      requires Valid()
      modifies this
      ensures Valid() && State() == DragStart(old(State()))
    {
      dragging := true;
    }

    /** `offset` stands for the pointer's horizontal displacement, taken as an
        integer on the same side of 50 and of -50 as the real offset (its
        ceiling above 50, its floor below -50). */
    method HandleDragEnd(offset: int)
      requires Valid()
      modifies this
      ensures Valid() && State() == DragEnd(old(State()), offset, |news|)
    {
      if offset > DragThreshold {
        PrevSlide();
      } else if offset < -DragThreshold {
        NextSlide();
      }
      dragging := false;
    }

    /** The interval callback, reached only when the effect ran with
        `dragging` false. */
    method AutoplayTick()
      requires Valid()
      modifies this
      ensures Valid() && State() == Tick(old(State()), |news|)
    {
      if dragging {
        return;
      }
      NextSlide();
    }

    /** What is on screen: nothing for an empty list, else the current slide. */
    method Render() returns (slide: Option<NewsItem>)
      requires Valid()
      ensures slide.None? <==> |news| == 0
      ensures slide.Some? ==> slide.value == news[current] && slide.value in news
    {
      if |news| == 0 {
        return None;
      }
      slide := Some(news[current]);
    }
  }
}
