/** The testimonial carousel on the home page (`frontend/src/components/Testimonials.tsx`):
    the shown index and the slide direction, moved by the five-second timer and by the
    dots under the card. */
module Testimonials {

  /** The carousel holds three testimonials. */
  const Count: nat := 3

  datatype Carousel = Carousel(current: int, direction: int)

  const Initial := Carousel(0, 1)

  /** The index points at a testimonial and the direction is forward or backward. */
  predicate Valid(c: Carousel) {
    0 <= c.current < Count && (c.direction == 1 || c.direction == -1)
  }

  /** The carousel starts on the first testimonial, sliding forward. */
  lemma InitialIsValid()
    ensures Valid(Initial) && Initial.current == 0 && Initial.direction == 1
  {
  }

  /** The timer: the next testimonial, wrapping after the last, sliding forward. */
  function Advance(c: Carousel): (r: Carousel)
    requires Valid(c)
    ensures Valid(r) && r.direction == 1
    ensures c.current < Count - 1 ==> r.current == c.current + 1
    ensures c.current == Count - 1 ==> r.current == 0
  {
    Carousel((c.current + 1) % Count, 1)
  }

  /** `handleDotClick(index)`: the clicked testimonial, sliding forward when it lies after
      the current one and backward otherwise, the current one included. The dots are one
      per testimonial. */
  function DotClick(c: Carousel, index: int): (r: Carousel)
    requires Valid(c) && 0 <= index < Count
    ensures Valid(r) && r.current == index
    ensures r.direction == 1 <==> index > c.current
  {
    Carousel(index, if index > c.current then 1 else -1)
  }

  datatype Event = Tick | Dot(index: int)

  predicate DotsInRange(events: seq<Event>) {
    forall i :: 0 <= i < |events| && events[i].Dot? ==> 0 <= events[i].index < Count
  }

  /** The events in order. */
  function Run(c: Carousel, events: seq<Event>): (r: Carousel)
    requires Valid(c) && DotsInRange(events)
    ensures Valid(r)
    decreases |events|
  {
    if events == [] then c
    else
      var next := match events[0]
        case Tick => Advance(c)
        case Dot(i) => DotClick(c, i);
      Run(next, events[1..])
  }

  /** Three ticks come back to the same testimonial. */
  lemma ThreeTicksCycle(c: Carousel)
    requires Valid(c)
    ensures Run(c, [Tick, Tick, Tick]).current == c.current
  {
    assert [Tick, Tick, Tick][1..] == [Tick, Tick];
    assert [Tick, Tick][1..] == [Tick];
  }

  /** Clicking the dot already shown keeps the testimonial but sets the direction
      backward. */
  lemma SameDotSlidesBack(c: Carousel)
    requires Valid(c)
    ensures DotClick(c, c.current) == Carousel(c.current, -1)
  {
  }
}
