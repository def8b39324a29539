/** Values shared by the piano-roll components: track events, the coordinate
    transform they are drawn with, the note items the note stage draws, and
    the mouse event the stage hands to its mouse handler. */
module PianoModel {

  datatype Option<T> = None | Some(value: T)

  /** A track event. Only note events carry a duration and a note number;
      for any other event `duration` reads as undefined, which is `None`
      here. */
  datatype TrackEvent = TrackEvent(
    id: int,
    subtype: string,
    tick: int,
    duration: Option<int>,
    noteNumber: int,
    velocity: int)

  /** A rectangle in pixels. */
  datatype Rect = Rect(x: real, y: real, width: real, height: real)

  /** The note coordinate transform. Its mappings between ticks, note numbers
      and pixels are not part of this model: they are given as functions when
      the transform is built. It is an object, so the note stage's re-render
      test compares it by identity. */
  class Transform {
    const pixelsPerTick: real
    const pixelsPerKey: real
    const numberOfKeys: int
    const getX: real -> real
    const getTicks: real -> real
    const getNoteNumber: real -> real
    const getRect: TrackEvent -> Rect

    constructor (pixelsPerTick: real, pixelsPerKey: real, numberOfKeys: int,
                 getX: real -> real, getTicks: real -> real,
                 getNoteNumber: real -> real, getRect: TrackEvent -> Rect)
      ensures this.pixelsPerTick == pixelsPerTick && this.pixelsPerKey == pixelsPerKey
      ensures this.numberOfKeys == numberOfKeys
      ensures this.getX == getX && this.getTicks == getTicks
      ensures this.getNoteNumber == getNoteNumber && this.getRect == getRect
    {
      this.pixelsPerTick := pixelsPerTick;
      this.pixelsPerKey := pixelsPerKey;
      this.numberOfKeys := numberOfKeys;
      this.getX := getX;
      this.getTicks := getTicks;
      this.getNoteNumber := getNoteNumber;
      this.getRect := getRect;
    }
  }

  /** What the note stage draws for one note event. */
  datatype PianoNoteItem = PianoNoteItem(
    id: int,
    x: real, y: real, width: real, height: real,
    velocity: int,
    isSelected: bool,
    isDrumMode: bool)

  /** The state of a mouse event at one moment, as a value. */
  datatype MouseEventData = MouseEventData(
    button: int,
    localX: real, localY: real,
    items: seq<PianoNoteItem>,
    tick: real,
    noteNumber: int,
    item: Option<PianoNoteItem>)

  /** A mouse event on the note stage. The stage fills in the pressed button,
      the local position and the items under the pointer (its hit test is not
      part of this model); the note component then adds `tick`, `noteNumber`
      and `item` to the same object. */
  class PianoNotesMouseEvent {
    const button: int
    const localX: real
    const localY: real
    const items: seq<PianoNoteItem>
    var tick: real
    var noteNumber: int
    var item: Option<PianoNoteItem>

    constructor (button: int, localX: real, localY: real, items: seq<PianoNoteItem>)
      ensures this.button == button && this.localX == localX && this.localY == localY
      ensures this.items == items
      ensures tick == 0.0 && noteNumber == 0 && item == None
    {
      this.button := button;
      this.localX := localX;
      this.localY := localY;
      this.items := items;
      tick := 0.0;
      noteNumber := 0;
      item := None;
    }

    function Snapshot(): (d: MouseEventData)
      reads this
    {
      MouseEventData(button, localX, localY, items, tick, noteNumber, item)
    }
  }
}
