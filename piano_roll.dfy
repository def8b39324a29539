/** The piano roll's viewport: which events are drawn for the current scroll
    position, how far the content extends, how the two scroll panes (the
    notes pane "alpha" and the velocity pane "beta") and the component state
    stay in step, how the playback cursor is followed, and the ruler click
    that moves the playback position. DOM measurements are given as
    numbers. */
module PianoRoll {
  import opened PianoModel

  /** Whether `tick` lies in the closed window `[tickStart, tickEnd]`. */
  predicate InWindow(tick: real, tickStart: real, tickEnd: real)
  {
    tickStart <= tick <= tickEnd
  }

  /** Whether event `e` starts or ends inside the ticks shown between
      `scrollLeft` and `scrollLeft + width`. An event without a duration
      can only be seen by its start. Only a window that is not empty shows
      anything. */
  predicate Visible(e: TrackEvent, transform: Transform, scrollLeft: real, width: real)
    ensures Visible(e, transform, scrollLeft, width) ==>
      transform.getTicks(scrollLeft) <= transform.getTicks(scrollLeft + width)
  {
    var tickStart := transform.getTicks(scrollLeft);
    var tickEnd := transform.getTicks(scrollLeft + width);
    InWindow(e.tick as real, tickStart, tickEnd)
    || (e.duration.Some? && InWindow((e.tick + e.duration.value) as real, tickStart, tickEnd))
  }

  function FilterEventsWithScroll(events: seq<TrackEvent>, transform: Transform,
                                  scrollLeft: real, width: real): (r: seq<TrackEvent>)
    ensures |r| <= |events|
    ensures forall e :: e in r <==> e in events && Visible(e, transform, scrollLeft, width)
  {
    if events == [] then []
    else
      (if Visible(events[0], transform, scrollLeft, width) then [events[0]] else [])
      + FilterEventsWithScroll(events[1..], transform, scrollLeft, width)
  }

  /** Every copy of a visible event is kept, and no copy of any other:
      together with `FilterIsSubsequence`, the result is the input with
      exactly the invisible events left out. */
  lemma {:induction false} FilterKeepsEveryCopy(events: seq<TrackEvent>, transform: Transform,
                                                scrollLeft: real, width: real, e: TrackEvent)
    ensures multiset(FilterEventsWithScroll(events, transform, scrollLeft, width))[e]
         == if Visible(e, transform, scrollLeft, width) then multiset(events)[e] else 0
  {
    if events != [] {
      FilterKeepsEveryCopy(events[1..], transform, scrollLeft, width, e);
      assert events == [events[0]] + events[1..];
      assert multiset(events) == multiset([events[0]]) + multiset(events[1..]);
    }
  }

  /** `a` is `b` with some elements left out, the rest in their order. */
  predicate IsSubsequence<T(==)>(a: seq<T>, b: seq<T>)
  {
    if a == [] then true
    else if b == [] then false
    else if a[0] == b[0] then IsSubsequence(a[1..], b[1..])
    else IsSubsequence(a, b[1..])
  }

  /** The visible events keep their order. */
  lemma {:induction false} FilterIsSubsequence(events: seq<TrackEvent>, transform: Transform,
                                               scrollLeft: real, width: real)
    ensures IsSubsequence(FilterEventsWithScroll(events, transform, scrollLeft, width), events)
  {
    if events != [] {
      var rest := FilterEventsWithScroll(events[1..], transform, scrollLeft, width);
      FilterIsSubsequence(events[1..], transform, scrollLeft, width);
      if Visible(events[0], transform, scrollLeft, width) {
        assert ([events[0]] + rest)[1..] == rest;
      } else {
        assert FilterEventsWithScroll(events, transform, scrollLeft, width) == rest;
        RestIsSubsequence(rest, events);
      }
    }
  }

  lemma {:induction false} RestIsSubsequence<T>(a: seq<T>, b: seq<T>)
    requires b != [] && IsSubsequence(a, b[1..])
    ensures IsSubsequence(a, b)
  {
    if a != [] && a[0] == b[0] {
      SubsequenceDropFirst(a, b[1..]);
    }
  }

  lemma {:induction false} SubsequenceDropFirst<T>(a: seq<T>, b: seq<T>)
    requires a != [] && IsSubsequence(a, b)
    ensures IsSubsequence(a[1..], b)
  {
    if a[0] == b[0] {
      if a[1..] != [] {
        RestIsSubsequence(a[1..], b);
      }
    } else {
      SubsequenceDropFirst(a, b[1..]);
      if a[1..] != [] {
        RestIsSubsequence(a[1..], b);
      }
    }
  }

  /** An event that starts before the window and ends after it is not
      drawn: neither its start nor its end lies inside. */
  lemma SpanningEventNotVisible(e: TrackEvent, events: seq<TrackEvent>, transform: Transform,
                                scrollLeft: real, width: real)
    requires e.duration.Some?
    requires (e.tick as real) < transform.getTicks(scrollLeft)
    requires ((e.tick + e.duration.value) as real) > transform.getTicks(scrollLeft + width)
    ensures e !in FilterEventsWithScroll(events, transform, scrollLeft, width)
  {
  }

  /** The scroll position `forceScrollLeft` settles on: the requested
      position, but no further than the maximum, rounded down. */
  function ForcedScrollLeft(required: real, maxScrollLeft: real): (r: int)
    ensures r as real <= maxScrollLeft && r as real <= required
    ensures (r + 1) as real > maxScrollLeft || (r + 1) as real > required
  {
    (if maxScrollLeft <= required then maxScrollLeft else required).Floor
  }

  /** Whether a cursor at content position `x` is outside the part of the
      view the player keeps it in, while auto-scroll follows the playing
      player: beyond 70% of the view's width, or left of it. In content
      coordinates: outside `[scrollLeft, scrollLeft + 0.7 * clientWidth]`. */
  predicate CursorOutOfView(x: real, scrollLeft: real, clientWidth: real)
    ensures CursorOutOfView(x, scrollLeft, clientWidth)
        <==> !(scrollLeft <= x <= scrollLeft + 0.7 * clientWidth)
  {
    var screenX := x - scrollLeft;
    screenX > clientWidth * 0.7 || screenX < 0.0
  }

  datatype Layout = Layout(endTick: real, contentWidth: real)

  /** The content's extent: the song's end tick, but at least as far as the
      visible width reaches; the content width is that many ticks in
      pixels. */
  function ContentLayout(propsEndTick: real, transform: Transform, notesWidth: real): (l: Layout)
    ensures l.endTick >= propsEndTick && l.endTick >= transform.getTicks(notesWidth)
    ensures l.endTick == propsEndTick || l.endTick == transform.getTicks(notesWidth)
    ensures l.contentWidth == l.endTick * transform.pixelsPerTick
    ensures transform.pixelsPerTick >= 0.0 ==> l.contentWidth >= propsEndTick * transform.pixelsPerTick
  {
    var endTick := if propsEndTick >= transform.getTicks(notesWidth) then propsEndTick
                   else transform.getTicks(notesWidth);
    Layout(endTick, endTick * transform.pixelsPerTick)
  }

  /** The playback position and state, shared with the player. */
  class Player {
    var isPlaying: bool
    var position: real

    constructor (isPlaying: bool, position: real)
      ensures this.isPlaying == isPlaying && this.position == position
    {
      this.isPlaying := isPlaying;
      this.position := position;
    }
  }

  class PianoRoll {
    const player: Player
    /** The scroll positions of the two panes. */
    var alphaScrollLeft: real
    var betaScrollLeft: real
    /** The component state. */
    var scrollLeft: real
    var scrollTop: real
    var cursorPosition: real
    var alphaWidth: real

    /** Both panes and the state agree on the horizontal scroll position. */
    predicate Synced()
      reads this
    {
      alphaScrollLeft == betaScrollLeft == scrollLeft
    }

    constructor (player: Player)
      ensures Synced() && this.player == player
      ensures scrollLeft == 0.0 && scrollTop == 0.0 && cursorPosition == 0.0 && alphaWidth == 0.0
    {
      this.player := player;
      alphaScrollLeft, betaScrollLeft := 0.0, 0.0;
      scrollLeft, scrollTop, cursorPosition, alphaWidth := 0.0, 0.0, 0.0, 0.0;
    }

    /** The events drawn for the current scroll position and width. */
    function VisibleEvents(events: seq<TrackEvent>, transform: Transform): (r: seq<TrackEvent>)
      reads this
      ensures forall e :: e in r <==> e in events && Visible(e, transform, scrollLeft, alphaWidth)
    {
      FilterEventsWithScroll(events, transform, scrollLeft, alphaWidth)
    }

    /** The notes pane was measured (on mount and on every window resize). */
    method OnResize(alphaClientWidth: real)
      modifies this`alphaWidth
      ensures alphaWidth == alphaClientWidth
    {
      alphaWidth := alphaClientWidth;
    }

    /** Scroll both panes to `requiredScrollLeft`, limited to the beta pane's
        maximum and rounded down, and record it in the state. */
    method ForceScrollLeft(requiredScrollLeft: real, betaScrollWidth: real, betaClientWidth: real)
      modifies this`alphaScrollLeft, this`betaScrollLeft, this`scrollLeft
      ensures Synced()
      ensures scrollLeft == ForcedScrollLeft(requiredScrollLeft, betaScrollWidth - betaClientWidth) as real
      ensures scrollLeft <= betaScrollWidth - betaClientWidth
    {
      var maxScrollLeft := betaScrollWidth - betaClientWidth;
      var v := ForcedScrollLeft(requiredScrollLeft, maxScrollLeft) as real;
      alphaScrollLeft := v;
      betaScrollLeft := v;
      scrollLeft := v;
    }

    /** The notes pane scrolled: only the vertical position is recorded. */
    method OnAlphaScroll(newScrollTop: real)
      modifies this`scrollTop
      ensures scrollTop == newScrollTop
    {
      scrollTop := newScrollTop;
    }

    /** The velocity pane scrolled to `newScrollLeft`: the notes pane and the
        state follow it. */
    method OnBetaScroll(newScrollLeft: real)
      modifies this`alphaScrollLeft, this`betaScrollLeft, this`scrollLeft
      ensures Synced() && scrollLeft == newScrollLeft
    {
      betaScrollLeft := newScrollLeft;
      alphaScrollLeft := newScrollLeft;
      scrollLeft := newScrollLeft;
    }

    /** The player moved to `tick`: the cursor follows it, and while
        auto-scroll is on and the player plays, a cursor out of view
        scrolls the view to it. Otherwise the scroll is untouched. */
    method OnChangePosition(tick: real, transform: Transform, autoScroll: bool,
                            alphaClientWidth: real, betaScrollWidth: real, betaClientWidth: real)
      requires Synced()
      modifies this`cursorPosition, this`alphaScrollLeft, this`betaScrollLeft, this`scrollLeft
      ensures Synced()
      ensures cursorPosition == transform.getX(tick)
      ensures autoScroll && player.isPlaying && CursorOutOfView(cursorPosition, old(scrollLeft), alphaClientWidth)
        ==> scrollLeft == ForcedScrollLeft(cursorPosition, betaScrollWidth - betaClientWidth) as real
      ensures !(autoScroll && player.isPlaying && CursorOutOfView(cursorPosition, old(scrollLeft), alphaClientWidth))
        ==> scrollLeft == old(scrollLeft)
    {
      var x := transform.getX(tick);
      cursorPosition := x;
      if autoScroll && player.isPlaying {
        var screenX := x - scrollLeft;
        if screenX > alphaClientWidth * 0.7 || screenX < 0.0 {
          ForceScrollLeft(x, betaScrollWidth, betaClientWidth);
        }
      }
    }

    /** A click on the ruler at `offsetX` moves the player there, unless it
        is playing. */
    method OnMouseDownRuler(offsetX: real, transform: Transform)
      modifies player`position
      ensures !player.isPlaying ==> player.position == transform.getTicks(offsetX)
      ensures player.isPlaying ==> player.position == old(player.position)
    {
      var tick := transform.getTicks(offsetX);
      if !player.isPlaying {
        player.position := tick;
      }
    }
  }
}
