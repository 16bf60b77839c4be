/** The custom cursor: a ring and a dot that follow the pointer, shrink or grow
    while a button is held, and hide when the pointer leaves the page. Nothing is
    registered on a coarse (touch) pointer. */
module CustomCursor {
  import opened Common

  /** The five listeners the effect adds. */
  datatype Handler = OnMove | OnDown | OnUp | OnLeave | OnEnter

  const AllHandlers: set<Handler> := {OnMove, OnDown, OnUp, OnLeave, OnEnter}

  datatype Event = Move(x: int, y: int) | Down | Up | Leave | Enter

  function HandlerFor(e: Event): Handler
  {
    match e
    case Move(_, _) => OnMove
    case Down => OnDown
    case Up => OnUp
    case Leave => OnLeave
    case Enter => OnEnter
  }

  /** The three state cells. */
  datatype Cells = Cells(x: int, y: int, visible: bool, clicking: bool)

  const Initial: Cells := Cells(0, 0, false, false)

  /** What each handler does. */
  function Handled(c: Cells, e: Event): Cells
  {
    match e
    case Move(x, y) => c.(x := x, y := y, visible := true)
    case Down => c.(clicking := true)
    case Up => c.(clicking := false)
    case Leave => c.(visible := false)
    case Enter => c.(visible := true)
  }

  /** An event reaches its handler only while that handler is registered. */
  function Delivered(c: Cells, registered: set<Handler>, e: Event): Cells
  {
    if HandlerFor(e) in registered then Handled(c, e) else c
  }

  /** The cells after a sequence of events. */
  function Run(c: Cells, registered: set<Handler>, es: seq<Event>): Cells
    decreases |es|
  {
    if es == [] then c else Delivered(Run(c, registered, es[..|es| - 1]), registered, es[|es| - 1])
  }

  /** `move` records the position and shows the cursor, `mousedown` and
      `mouseup` set and clear `clicking`, `mouseleave` hides and `mouseenter`
      shows; each touches nothing else. */
  lemma HandlerEffects(c: Cells, x: int, y: int)
    ensures Handled(c, Move(x, y)) == Cells(x, y, true, c.clicking)
    ensures Handled(c, Down) == c.(clicking := true) && Handled(c, Up) == c.(clicking := false)
    ensures Handled(c, Leave) == c.(visible := false) && Handled(c, Enter) == c.(visible := true)
  {
  }

  /** With nothing registered, as on a coarse pointer, no event changes anything,
      so the cursor never becomes visible. */
  lemma {:induction false} CoarseNeverVisible(es: seq<Event>)
    ensures Run(Initial, {}, es) == Initial
    ensures !Run(Initial, {}, es).visible
    decreases |es|
  {
    if es != [] {
      CoarseNeverVisible(es[..|es| - 1]);
    }
  }

  predicate ShowsOrHides(e: Event)
  {
    e.Move? || e.Enter? || e.Leave?
  }

  predicate PressOrRelease(e: Event)
  {
    e.Down? || e.Up?
  }

  /** With every listener registered, an event that neither shows nor hides the
      cursor leaves its visibility alone, and one that neither presses nor
      releases leaves `clicking` alone. */
  lemma {:induction false} UntouchedByOtherEvents(c: Cells, es: seq<Event>)
    ensures (forall i | 0 <= i < |es| :: !ShowsOrHides(es[i])) ==> Run(c, AllHandlers, es).visible == c.visible
    ensures (forall i | 0 <= i < |es| :: !PressOrRelease(es[i])) ==> Run(c, AllHandlers, es).clicking == c.clicking
    decreases |es|
  {
    if es != [] {
      var init := es[..|es| - 1];
      assert forall i | 0 <= i < |init| :: init[i] == es[i];
      UntouchedByOtherEvents(c, init);
    }
  }

  /** The cursor is visible after a sequence of events exactly when the last
      event that shows or hides it, at index `i`, was not `mouseleave`. */
  lemma {:induction false} VisibleFollowsLastEvent(c: Cells, es: seq<Event>, i: nat)
    requires i < |es| && ShowsOrHides(es[i])
    requires forall j | i < j < |es| :: !ShowsOrHides(es[j])
    ensures Run(c, AllHandlers, es).visible <==> !es[i].Leave?
    decreases |es|
  {
    var init := es[..|es| - 1];
    if i < |es| - 1 {
      assert forall j | i < j < |init| :: init[j] == es[j];
      VisibleFollowsLastEvent(c, init, i);
    }
  }

  /** Likewise `clicking` holds exactly when the last press or release, at index
      `i`, was a press. */
  lemma {:induction false} ClickingFollowsLastEvent(c: Cells, es: seq<Event>, i: nat)
    requires i < |es| && PressOrRelease(es[i])
    requires forall j | i < j < |es| :: !PressOrRelease(es[j])
    ensures Run(c, AllHandlers, es).clicking <==> es[i].Down?
    decreases |es|
  {
    var init := es[..|es| - 1];
    if i < |es| - 1 {
      assert forall j | i < j < |init| :: init[j] == es[j];
      ClickingFollowsLastEvent(c, init, i);
    }
  }

  // ---------------------------------------------------------------------------
  // Rendering

  /** A square element: side length and top-left corner, in pixels. */
  datatype Square = Square(size: int, left: int, top: int)

  function RingSize(clicking: bool): int { if clicking then 28 else 36 }
  function RingOffset(clicking: bool): int { if clicking then 14 else 18 }
  function DotSize(clicking: bool): int { if clicking then 6 else 4 }
  function DotOffset(clicking: bool): int { if clicking then 3 else 2 }

  datatype Drawn = Drawn(ring: Square, dot: Square)

  /** Nothing while hidden; otherwise the ring and the dot, each placed by
      subtracting its offset from the pointer position. */
  function Rendered(c: Cells): Option<Drawn>
  {
    if !c.visible then None
    else Some(Drawn(
      Square(RingSize(c.clicking), c.x - RingOffset(c.clicking), c.y - RingOffset(c.clicking)),
      Square(DotSize(c.clicking), c.x - DotOffset(c.clicking), c.y - DotOffset(c.clicking))))
  }

  /** Both shapes are centred on the pointer in either state: the pointer lies
      half a side from each shape's left and top edges. The ring shrinks and the
      dot grows while clicking. */
  lemma ShapesAreCentred(c: Cells)
    ensures Rendered(c).Some? <==> c.visible
    ensures Rendered(c).Some? ==>
      var d := Rendered(c).value;
      2 * (c.x - d.ring.left) == d.ring.size && 2 * (c.y - d.ring.top) == d.ring.size
      && 2 * (c.x - d.dot.left) == d.dot.size && 2 * (c.y - d.dot.top) == d.dot.size
      && (c.clicking ==> d.ring.size < RingSize(false) && d.dot.size > DotSize(false))
  {
  }

  // ---------------------------------------------------------------------------
  // The component

  class Cursor {
    var x: int
    var y: int
    var visible: bool
    var clicking: bool
    var listeners: set<Handler>

    function Snapshot(): Cells
      reads this
    {
      Cells(x, y, visible, clicking)
    }

    /** Mounting: on a coarse pointer the effect returns before registering
        anything; otherwise all five listeners are added. */
    constructor (coarse: bool)
      ensures Snapshot() == Initial
      ensures listeners == (if coarse then {} else AllHandlers)
    {
      x, y, visible, clicking := 0, 0, false, false;
      listeners := if coarse then {} else AllHandlers;
    }

    method Dispatch(e: Event)
      modifies this
      ensures Snapshot() == Delivered(old(Snapshot()), old(listeners), e)
      ensures listeners == old(listeners)
    {
      if HandlerFor(e) in listeners {
        match e
        case Move(px, py) => x, y, visible := px, py, true;
        case Down => clicking := true;
        case Up => clicking := false;
        case Leave => visible := false;
        case Enter => visible := true;
      }
    }

    /** The effect's cleanup removes the five listeners it added. */
    method Unmount()
      modifies this
      ensures listeners == old(listeners) - AllHandlers
      ensures Snapshot() == old(Snapshot())
    {
      listeners := listeners - AllHandlers;
    }
  }
}
