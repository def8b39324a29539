/** The note stage's mouse handler: a two-state machine (idle, or a gesture
    active together with its move and up callbacks), the drag-scroll gesture
    with its document-level listeners, and the change-tool gesture.

    The handler's subclass hooks become a `Hooks` value given at
    construction. What the application does with a dispatched action is not
    modelled: dispatched actions are appended to a `Dispatcher` log, and a
    callback a gesture installed leaves an `Invocation` record when it runs. */
module MouseHandler {
  import opened PianoModel

  /** The actions the handler and its gestures dispatch. */
  datatype Action =
    | ChangeCursor(cursor: string)
    | ScrollBy(dx: real, dy: real)
    | ToggleTool
    | Named(name: string)  // an action a subclass gesture dispatches

  /** The application's dispatcher, as the log of what was dispatched. */
  class Dispatcher {
    var actions: seq<Action>

    constructor ()
      ensures actions == []
    {
      actions := [];
    }
  }

  /** A move or up callback: the do-nothing one the handler installs at the
      start of every gesture, or one a gesture registered (by its number). */
  datatype Callback = NoOp | Registered(id: nat)

  /** One run of a registered callback, with the event it was given. */
  datatype Invocation = Invocation(callback: nat, e: MouseEventData)

  /** A gesture a mouse-down hook may return. `Custom` stands for a subclass
      gesture: the actions its mouse-down callback dispatches, and the move
      and up callbacks it registers, if any. */
  datatype Gesture =
    | DragScroll
    | ChangeTool
    | Custom(onDown: seq<Action>, onMove: Option<nat>, onUp: Option<nat>)

  /** The two hooks a subclass overrides. */
  datatype Hooks = Hooks(
    actionForMouseDown: MouseEventData -> Option<Gesture>,
    cursorForMouseMove: MouseEventData -> string)

  /** The base class's mouse-down classification: the middle button (button 1)
      starts drag-scrolling, every other button starts nothing. */
  function BaseActionForMouseDown(e: MouseEventData): (g: Option<Gesture>)
    ensures g.Some? <==> e.button == 1
    ensures g.Some? ==> g.value.DragScroll?
  {
    if e.button == 1 then Some(DragScroll) else None
  }

  /** The base class's cursor hint. */
  function BaseCursorForMouseMove(e: MouseEventData): (cursor: string)
    ensures cursor == "auto"
  {
    "auto"
  }

  function BaseHooks(): (h: Hooks)
  {
    Hooks(BaseActionForMouseDown, BaseCursorForMouseMove)
  }

  /** The move callback in place once gesture `g` has started: the one it
      registered, else the do-nothing one installed just before it ran. */
  function MoveCallback(g: Gesture): (cb: Callback)
    ensures cb != NoOp <==> g.Custom? && g.onMove.Some?
    ensures cb != NoOp ==> cb == Registered(g.onMove.value)
  {
    match g
    case Custom(_, Some(id), _) => Registered(id)
    case _ => NoOp
  }

  /** The up callback in place once gesture `g` has started. */
  function UpCallback(g: Gesture): (cb: Callback)
    ensures cb != NoOp <==> g.Custom? && g.onUp.Some?
    ensures cb != NoOp ==> cb == Registered(g.onUp.value)
  {
    match g
    case Custom(_, _, Some(id)) => Registered(id)
    case _ => NoOp
  }

  /** What the gesture's mouse-down callback dispatches, in order. */
  function DownActions(g: Gesture): (acts: seq<Action>)
    ensures g.DragScroll? ==> acts == []
    ensures g.ChangeTool? ==> acts == [ToggleTool, ChangeCursor("crosshair")]
  {
    match g
    case DragScroll => []
    case ChangeTool => [ToggleTool, ChangeCursor("crosshair")]
    case Custom(down, _, _) => down
  }

  /** Running callback `cb` on `e`: the do-nothing callback leaves no record,
      a registered one exactly one. */
  function Run(cb: Callback, e: MouseEventData): (calls: seq<Invocation>)
    ensures |calls| <= 1
    ensures calls == [] <==> cb.NoOp?
    ensures calls != [] ==> calls[0] == Invocation(cb.id, e)
  {
    match cb
    case NoOp => []
    case Registered(id) => [Invocation(id, e)]
  }

  function Repeat<T>(x: T, n: nat): (s: seq<T>)
    ensures |s| == n
    ensures forall i :: 0 <= i < n ==> s[i] == x
  {
    if n == 0 then [] else Repeat(x, n - 1) + [x]
  }

  // ---------------------------------------------------------------------
  // Document-level listeners

  /** A document listener. Every drag-scroll gesture adds one `mousemove`
      and one `mouseup` listener, both closures of that gesture; the token
      tells the closures of different gestures apart. `Other` is a listener
      someone else registered. */
  datatype Listener =
    | DragScrollMove(token: nat)
    | DragScrollUp(token: nat)
    | Other(name: string)

  /** Drag-scroll listeners come in pairs. */
  ghost predicate Paired(ls: set<Listener>)
  {
    forall t: nat :: DragScrollMove(t) in ls <==> DragScrollUp(t) in ls
  }

  /** Listeners someone other than a drag-scroll gesture registered. */
  function Others(ls: set<Listener>): (r: set<Listener>)
    ensures r <= ls
    ensures forall l :: l in ls && l.Other? ==> l in r
    ensures forall l :: l in r ==> l.Other?
  {
    set l | l in ls && l.Other?
  }

  /** The registrations after a drag-scroll gesture with token `t` starts. */
  function WithDragScroll(ls: set<Listener>, t: nat): (r: set<Listener>)
    ensures ls <= r
    ensures DragScrollMove(t) in r && DragScrollUp(t) in r
    ensures r - ls <= {DragScrollMove(t), DragScrollUp(t)}
  {
    ls + {DragScrollMove(t), DragScrollUp(t)}
  }

  /** The registrations after a global mouse-up: every drag-scroll `mouseup`
      listener runs and removes itself and its gesture's `mousemove`
      listener; nothing else is touched. */
  function AfterGlobalMouseUp(ls: set<Listener>): (r: set<Listener>)
    ensures r <= ls
    ensures Others(ls) <= r
    ensures forall t: nat :: DragScrollUp(t) !in r
    ensures forall t: nat :: DragScrollMove(t) in r <==> DragScrollMove(t) in ls && DragScrollUp(t) !in ls
  {
    set l | l in ls && !l.DragScrollUp? && !(l.DragScrollMove? && DragScrollUp(l.token) in ls)
  }

  /** The number of drag-scroll `mousemove` listeners registered. */
  function MoveListenerCount(ls: set<Listener>): (n: nat)
  {
    |set l | l in ls && l.DragScrollMove?|
  }

  /** With the listeners paired, a global mouse-up leaves only the listeners
      of others: no drag-scroll listener survives it. */
  lemma GlobalMouseUpLeavesOthers(ls: set<Listener>)
    requires Paired(ls)
    ensures AfterGlobalMouseUp(ls) == Others(ls)
  {
  }

  /** A drag-scroll gesture started with a fresh token and ended by the global
      mouse-up leaves the document's registrations as they were before it,
      provided no other drag-scroll was in progress. */
  lemma DragScrollRestoresListeners(ls: set<Listener>, t: nat)
    requires forall l :: l in ls ==> l.Other?
    ensures AfterGlobalMouseUp(WithDragScroll(ls, t)) == ls
  {
  }

  /** The document: its registered listeners, and the next token to hand to a
      drag-scroll gesture. */
  class Document {
    var listeners: set<Listener>
    var nextToken: nat

    ghost predicate Valid()
      reads this
    {
      Paired(listeners) &&
      (forall t: nat :: DragScrollUp(t) in listeners ==> t < nextToken)
    }

    constructor (others: set<string>)
      ensures Valid()
      ensures listeners == set name | name in others :: Other(name)
    {
      listeners := set name | name in others :: Other(name);
      nextToken := 0;
    }

    /** The drag-scroll gesture's mouse-down: register its `mousemove` and
        `mouseup` listeners, which are new to the document. */
    method AddDragScrollListeners() returns (t: nat)
      requires Valid()
      modifies this
      ensures Valid()
      ensures t == old(nextToken)
      ensures DragScrollMove(t) !in old(listeners) && DragScrollUp(t) !in old(listeners)
      ensures listeners == WithDragScroll(old(listeners), t)
      ensures |listeners| == |old(listeners)| + 2
    {
      t := nextToken;
      listeners := WithDragScroll(listeners, t);
      nextToken := nextToken + 1;
    }

    /** A mouse move anywhere in the document: every drag-scroll `mousemove`
        listener dispatches `scrollBy(movementX, movementY)`. The listeners
        all dispatch to the application's one dispatcher. */
    method GlobalMouseMove(dispatch: Dispatcher, movementX: real, movementY: real)
      modifies dispatch
      ensures dispatch.actions
              == old(dispatch.actions) + Repeat(ScrollBy(movementX, movementY), MoveListenerCount(listeners))
    {
      var n := |set l | l in listeners && l.DragScrollMove?|;
      dispatch.actions := dispatch.actions + Repeat(ScrollBy(movementX, movementY), n);
    }

    /** A mouse-up anywhere in the document: every drag-scroll `mouseup`
        listener removes both listeners of its gesture. */
    method GlobalMouseUp()
      requires Valid()
      modifies this`listeners
      ensures Valid()
      ensures listeners == AfterGlobalMouseUp(old(listeners))
    {
      GlobalMouseUpLeavesOthers(listeners);
      listeners := AfterGlobalMouseUp(listeners);
    }
  }

  /** `dragScrollAction`'s mouse-down callback: it dispatches nothing and
      registers the two document listeners. */
  method DragScrollOnMouseDown(document: Document)
    requires document.Valid()
    modifies document
    ensures document.Valid()
    ensures document.listeners == WithDragScroll(old(document.listeners), old(document.nextToken))
  {
    var _ := document.AddDragScrollListeners();
  }

  /** `changeToolAction`'s mouse-down callback: toggle the tool, then set the
      crosshair cursor. */
  method ChangeToolOnMouseDown(dispatch: Dispatcher)
    modifies dispatch
    ensures dispatch.actions == old(dispatch.actions) + [ToggleTool, ChangeCursor("crosshair")]
  {
    dispatch.actions := dispatch.actions + [ToggleTool];
    dispatch.actions := dispatch.actions + [ChangeCursor("crosshair")];
  }

  // ---------------------------------------------------------------------
  // The handler

  class NoteMouseHandler {
    const dispatch: Dispatcher
    const document: Document
    const hooks: Hooks
    /** The active gesture; `None` when idle. */
    var action: Option<Gesture>
    var actionMouseMove: Callback
    var actionMouseUp: Callback
    /** The runs of gesture callbacks so far. */
    var calls: seq<Invocation>

    /** While a gesture is active, the callbacks in place are the ones it
        registered, or the do-nothing ones: never an earlier gesture's. */
    ghost predicate Valid()
      reads this, document
    {
      document.Valid() &&
      (action.Some? ==>
        actionMouseMove == MoveCallback(action.value) &&
        actionMouseUp == UpCallback(action.value))
    }

    predicate Idle()
      reads this
    {
      action.None?
    }

    constructor (dispatch: Dispatcher, document: Document, hooks: Hooks)
      requires document.Valid()
      ensures Valid() && Idle()
      ensures this.dispatch == dispatch && this.document == document && this.hooks == hooks
      ensures actionMouseMove == NoOp && actionMouseUp == NoOp && calls == []
    {
      this.dispatch := dispatch;
      this.document := document;
      this.hooks := hooks;
      action := None;
      actionMouseMove := NoOp;
      actionMouseUp := NoOp;
      calls := [];
    }

    /** Classify the event and, if a gesture results, reset both callbacks
        to no-ops and run the gesture, whose mouse-down callback runs at
        once. The active gesture is overwritten whatever the state was. */
    method OnMouseDown(e: PianoNotesMouseEvent)
      requires Valid()
      modifies this, dispatch, document
      ensures Valid()
      ensures action == hooks.actionForMouseDown(e.Snapshot())
      ensures calls == old(calls)
      ensures action.None? ==>
        actionMouseMove == old(actionMouseMove) && actionMouseUp == old(actionMouseUp) &&
        unchanged(dispatch) && unchanged(document)
      ensures action.Some? ==>
        actionMouseMove == MoveCallback(action.value) &&
        actionMouseUp == UpCallback(action.value) &&
        dispatch.actions == old(dispatch.actions) + DownActions(action.value)
      ensures action.Some? && action.value.DragScroll? ==>
        document.listeners == WithDragScroll(old(document.listeners), old(document.nextToken))
      ensures action.Some? && !action.value.DragScroll? ==> unchanged(document)
    {
      var ev := e.Snapshot();
      action := hooks.actionForMouseDown(ev);
      if action.None? {
        return;
      }
      actionMouseMove := NoOp;
      actionMouseUp := NoOp;
      match action.value
      case DragScroll =>
        DragScrollOnMouseDown(document);
      case ChangeTool =>
        ChangeToolOnMouseDown(dispatch);
      case Custom(down, onMove, onUp) =>
        dispatch.actions := dispatch.actions + down;
        if onMove.Some? {
          actionMouseMove := Registered(onMove.value);
        }
        if onUp.Some? {
          actionMouseUp := Registered(onUp.value);
        }
    }

    /** While a gesture is active, run its move callback and dispatch
        nothing; while idle, dispatch exactly one cursor change with the
        hook's cursor. */
    method OnMouseMove(e: PianoNotesMouseEvent)
      requires Valid()
      modifies this`calls, dispatch
      ensures Valid()
      ensures old(action).Some? ==>
        calls == old(calls) + Run(MoveCallback(action.value), e.Snapshot()) &&
        dispatch.actions == old(dispatch.actions)
      ensures old(action).None? ==>
        calls == old(calls) &&
        dispatch.actions == old(dispatch.actions) + [ChangeCursor(hooks.cursorForMouseMove(e.Snapshot()))]
    {
      var ev := e.Snapshot();
      if action.Some? {
        calls := calls + Run(actionMouseMove, ev);
      } else {
        var cursor := hooks.cursorForMouseMove(ev);
        dispatch.actions := dispatch.actions + [ChangeCursor(cursor)];
      }
    }

    /** Run the active gesture's up callback once, if a gesture is active;
        in every case the handler is idle afterwards. */
    method OnMouseUp(e: PianoNotesMouseEvent)
      requires Valid()
      modifies this`calls, this`action
      ensures Valid() && Idle()
      ensures old(action).Some? ==> calls == old(calls) + Run(UpCallback(old(action).value), e.Snapshot())
      ensures old(action).None? ==> calls == old(calls)
    {
      if action.Some? {
        calls := calls + Run(actionMouseUp, e.Snapshot());
      }
      action := None;
    }
  }

  /** With the base hooks, a mouse-down with any button but the middle one
      leaves the handler idle and dispatches nothing; the middle button
      starts drag-scrolling. */
  method BaseMouseDown(h: NoteMouseHandler, e: PianoNotesMouseEvent)
    requires h.Valid() && h.hooks == BaseHooks()
    modifies h, h.dispatch, h.document
    ensures h.Valid()
    ensures e.button != 1 ==> h.Idle() && unchanged(h.dispatch) && unchanged(h.document)
    ensures e.button == 1 ==>
      h.action == Some(DragScroll) &&
      h.actionMouseMove == NoOp && h.actionMouseUp == NoOp &&
      h.dispatch.actions == old(h.dispatch.actions) &&
      h.document.listeners == WithDragScroll(old(h.document.listeners), old(h.document.nextToken))
  {
    h.OnMouseDown(e);
  }
}
