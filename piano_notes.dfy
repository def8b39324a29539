/** The note stage: the items it draws for the visible events, the stage
    height, the extension of every stage mouse event with its tick, note
    number and hit item before it goes to the mouse handler, and the test
    that decides whether new props re-render the stage. */
module PianoNotes {
  import opened PianoModel
  import MouseHandler

  /** The note events among `events`, in their order. */
  function NoteEvents(events: seq<TrackEvent>): (notes: seq<TrackEvent>)
    ensures |notes| <= |events|
    ensures forall e :: e in notes ==> e in events && e.subtype == "note"
    ensures forall e :: e in events && e.subtype == "note" ==> e in notes
  {
    if events == [] then []
    else (if events[0].subtype == "note" then [events[0]] else []) + NoteEvents(events[1..])
  }

  /** The item drawn for note event `e`. */
  function MakeItem(e: TrackEvent, transform: Transform, selectedEventIds: seq<int>,
                    isDrumMode: bool): (item: PianoNoteItem)
    ensures item.id == e.id && item.velocity == e.velocity
    ensures Rect(item.x, item.y, item.width, item.height) == transform.getRect(e)
    ensures item.isSelected <==> e.id in selectedEventIds
    ensures item.isDrumMode == isDrumMode
  {
    var rect := transform.getRect(e);
    PianoNoteItem(e.id, rect.x, rect.y, rect.width, rect.height, e.velocity,
                  e.id in selectedEventIds, isDrumMode)
  }

  /** The items of the note stage: one per note event, in order. */
  function Items(events: seq<TrackEvent>, transform: Transform, selectedEventIds: seq<int>,
                 isDrumMode: bool): (items: seq<PianoNoteItem>)
    ensures |items| == |NoteEvents(events)|
    ensures forall i :: 0 <= i < |items| ==>
      var e := NoteEvents(events)[i];
      e in events && e.subtype == "note" &&
      items[i].id == e.id && items[i].velocity == e.velocity &&
      Rect(items[i].x, items[i].y, items[i].width, items[i].height) == transform.getRect(e) &&
      (items[i].isSelected <==> e.id in selectedEventIds)
  {
    var notes := NoteEvents(events);
    seq(|notes|, i requires 0 <= i < |notes| => MakeItem(notes[i], transform, selectedEventIds, isDrumMode))
  }

  lemma {:induction false} NoteEventsConcat(a: seq<TrackEvent>, b: seq<TrackEvent>)
    ensures NoteEvents(a + b) == NoteEvents(a) + NoteEvents(b)
  {
    if a == [] {
      assert a + b == b;
    } else {
      assert (a + b)[1..] == a[1..] + b;
      NoteEventsConcat(a[1..], b);
    }
  }

  /** Items are built event by event: the items of two runs of events are
      the items of the first followed by the items of the second. */
  lemma ItemsConcat(a: seq<TrackEvent>, b: seq<TrackEvent>, transform: Transform,
                    selectedEventIds: seq<int>, isDrumMode: bool)
    ensures Items(a + b, transform, selectedEventIds, isDrumMode)
         == Items(a, transform, selectedEventIds, isDrumMode)
          + Items(b, transform, selectedEventIds, isDrumMode)
  {
    NoteEventsConcat(a, b);
  }

  /** A single event yields one item if it is a note event, and none
      otherwise; the item is selected exactly when its id is listed. */
  lemma ItemsOfOne(e: TrackEvent, transform: Transform, selectedEventIds: seq<int>,
                   isDrumMode: bool)
    ensures e.subtype == "note" ==>
      Items([e], transform, selectedEventIds, isDrumMode)
        == [MakeItem(e, transform, selectedEventIds, isDrumMode)]
    ensures e.subtype != "note" ==> Items([e], transform, selectedEventIds, isDrumMode) == []
    ensures e.subtype == "note" ==>
      (Items([e], transform, selectedEventIds, isDrumMode)[0].isSelected <==> e.id in selectedEventIds)
  {
  }

  /** The least integer not below `x`. */
  function Ceil(x: real): (n: int)
    ensures x <= n as real < x + 1.0
  {
    -((-x).Floor)
  }

  /** The props of the note stage. */
  datatype PianoNotesProps = PianoNotesProps(
    events: seq<TrackEvent>,
    transform: Transform,
    width: real,
    scrollLeft: real,
    cursor: string,
    selectedEventIds: seq<int>,
    mouseHandler: MouseHandler.NoteMouseHandler,
    isDrumMode: bool)

  /** What the note stage is given to draw. */
  datatype StageView = StageView(
    items: seq<PianoNoteItem>,
    width: real,
    height: real,
    scrollLeft: real,
    cursor: string)

  function Render(p: PianoNotesProps): (v: StageView)
    ensures v.items == Items(p.events, p.transform, p.selectedEventIds, p.isDrumMode)
    ensures v.height == p.transform.pixelsPerKey * p.transform.numberOfKeys as real
    ensures v.width == p.width && v.scrollLeft == p.scrollLeft && v.cursor == p.cursor
  {
    StageView(Items(p.events, p.transform, p.selectedEventIds, p.isDrumMode),
              p.width,
              p.transform.pixelsPerKey * p.transform.numberOfKeys as real,
              p.scrollLeft,
              p.cursor)
  }

  /** The re-render test: `events` and `selectedEventIds` are compared by
      value, the transform (an object) by identity, and the numbers and the
      cursor string by value. Identical props never re-render. */
  predicate ShouldUpdate(props: PianoNotesProps, nextProps: PianoNotesProps)
    ensures props == nextProps ==> !ShouldUpdate(props, nextProps)
  {
    props.events != nextProps.events
    || props.transform != nextProps.transform
    || props.scrollLeft != nextProps.scrollLeft
    || props.width != nextProps.width
    || props.cursor != nextProps.cursor
    || props.selectedEventIds != nextProps.selectedEventIds
  }

  /** The stage re-renders exactly when the new props differ from the old in
      something other than the mouse handler and the drum mode. */
  lemma ShouldUpdateIff(props: PianoNotesProps, nextProps: PianoNotesProps)
    ensures ShouldUpdate(props, nextProps)
        <==> props.(mouseHandler := nextProps.mouseHandler, isDrumMode := nextProps.isDrumMode) != nextProps
  {
  }

  /** Changing only the mouse handler or the drum mode never re-renders. */
  lemma IgnoredPropsNeverUpdate(props: PianoNotesProps, h: MouseHandler.NoteMouseHandler, d: bool)
    ensures !ShouldUpdate(props, props.(mouseHandler := h, isDrumMode := d))
  {
  }

  /** Moving one note to another pitch, and changing nothing else,
      re-renders the stage. */
  lemma MovedNoteUpdates(props: PianoNotesProps, i: int, noteNumber: int)
    requires 0 <= i < |props.events| && props.events[i].noteNumber != noteNumber
    ensures ShouldUpdate(props, props.(events := props.events[i := props.events[i].(noteNumber := noteNumber)]))
  {
  }

  /** Add the tick and the note number under the pointer and the first hit
      item to the event itself. */
  method ExtendEvent(e: PianoNotesMouseEvent, transform: Transform)
    modifies e
    ensures e.tick == transform.getTicks(e.localX)
    ensures e.noteNumber == Ceil(transform.getNoteNumber(e.localY))
    ensures e.item == if e.items == [] then None else Some(e.items[0])
  {
    var item := if e.items == [] then None else Some(e.items[0]);
    var tick := transform.getTicks(e.localX);
    var noteNumber := Ceil(transform.getNoteNumber(e.localY));
    e.item, e.tick, e.noteNumber := item, tick, noteNumber;
  }

  /** A stage mouse-down goes, extended, to the handler's mouse-down: the
      handler's state changes as its own mouse-down promises. */
  method OnStageMouseDown(p: PianoNotesProps, e: PianoNotesMouseEvent)
    requires p.mouseHandler.Valid()
    modifies e, p.mouseHandler, p.mouseHandler.dispatch, p.mouseHandler.document
    ensures p.mouseHandler.Valid()
    ensures e.tick == p.transform.getTicks(e.localX)
    ensures e.noteNumber == Ceil(p.transform.getNoteNumber(e.localY))
    ensures e.item == if e.items == [] then None else Some(e.items[0])
    ensures p.mouseHandler.action == p.mouseHandler.hooks.actionForMouseDown(e.Snapshot())
    ensures p.mouseHandler.calls == old(p.mouseHandler.calls)
    ensures p.mouseHandler.action.None? ==>
      p.mouseHandler.actionMouseMove == old(p.mouseHandler.actionMouseMove) &&
      p.mouseHandler.actionMouseUp == old(p.mouseHandler.actionMouseUp) &&
      unchanged(p.mouseHandler.dispatch) && unchanged(p.mouseHandler.document)
    ensures p.mouseHandler.action.Some? ==>
      p.mouseHandler.actionMouseMove == MouseHandler.MoveCallback(p.mouseHandler.action.value) &&
      p.mouseHandler.actionMouseUp == MouseHandler.UpCallback(p.mouseHandler.action.value) &&
      p.mouseHandler.dispatch.actions
        == old(p.mouseHandler.dispatch.actions) + MouseHandler.DownActions(p.mouseHandler.action.value)
    ensures p.mouseHandler.action.Some? && p.mouseHandler.action.value.DragScroll? ==>
      p.mouseHandler.document.listeners
        == MouseHandler.WithDragScroll(old(p.mouseHandler.document.listeners),
                                       old(p.mouseHandler.document.nextToken))
    ensures p.mouseHandler.action.Some? && !p.mouseHandler.action.value.DragScroll? ==>
      unchanged(p.mouseHandler.document)
  {
    ExtendEvent(e, p.transform);
    p.mouseHandler.OnMouseDown(e);
  }

  /** A stage mouse-move goes, extended, to the handler's mouse-move: the
      gesture and its callbacks stay as they are. */
  method OnStageMouseMove(p: PianoNotesProps, e: PianoNotesMouseEvent)
    requires p.mouseHandler.Valid()
    modifies e, p.mouseHandler`calls, p.mouseHandler.dispatch
    ensures p.mouseHandler.Valid()
    ensures e.tick == p.transform.getTicks(e.localX)
    ensures e.noteNumber == Ceil(p.transform.getNoteNumber(e.localY))
    ensures e.item == if e.items == [] then None else Some(e.items[0])
    ensures p.mouseHandler.action == old(p.mouseHandler.action)
    ensures p.mouseHandler.actionMouseMove == old(p.mouseHandler.actionMouseMove)
    ensures p.mouseHandler.actionMouseUp == old(p.mouseHandler.actionMouseUp)
    ensures old(p.mouseHandler.action).None? ==>
      p.mouseHandler.calls == old(p.mouseHandler.calls) &&
      p.mouseHandler.dispatch.actions == old(p.mouseHandler.dispatch.actions)
        + [MouseHandler.ChangeCursor(p.mouseHandler.hooks.cursorForMouseMove(e.Snapshot()))]
    ensures old(p.mouseHandler.action).Some? ==>
      p.mouseHandler.calls == old(p.mouseHandler.calls)
        + MouseHandler.Run(MouseHandler.MoveCallback(p.mouseHandler.action.value), e.Snapshot()) &&
      p.mouseHandler.dispatch.actions == old(p.mouseHandler.dispatch.actions)
  {
    ExtendEvent(e, p.transform);
    p.mouseHandler.OnMouseMove(e);
  }

  /** A stage mouse-up goes, extended, to the handler's mouse-up. */
  method OnStageMouseUp(p: PianoNotesProps, e: PianoNotesMouseEvent)
    requires p.mouseHandler.Valid()
    modifies e, p.mouseHandler`calls, p.mouseHandler`action
    ensures p.mouseHandler.Valid() && p.mouseHandler.Idle()
    ensures e.tick == p.transform.getTicks(e.localX)
    ensures e.noteNumber == Ceil(p.transform.getNoteNumber(e.localY))
    ensures e.item == if e.items == [] then None else Some(e.items[0])
    ensures old(p.mouseHandler.action).Some? ==>
      p.mouseHandler.calls == old(p.mouseHandler.calls)
        + MouseHandler.Run(MouseHandler.UpCallback(old(p.mouseHandler.action).value), e.Snapshot())
    ensures old(p.mouseHandler.action).None? ==> p.mouseHandler.calls == old(p.mouseHandler.calls)
  {
    ExtendEvent(e, p.transform);
    p.mouseHandler.OnMouseUp(e);
  }
}
