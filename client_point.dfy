/** `useClientPoint`: positioning the floating element at the cursor through
    a virtual reference element whose rectangle is computed from the
    cursor coordinates and the real reference's rectangle. */
module ClientPoint {
  import opened Common
  import opened Props
  import opened DomUtils

  datatype Axis = AxisX | AxisY | Both

  predicate IsXAxis(axis: Axis) { axis == AxisX || axis == Both }
  predicate IsYAxis(axis: Axis) { axis == AxisY || axis == Both }

  /** The rectangle a context element reports. */
  datatype DomRect = DomRect(width: int, height: int, x: int, y: int)

  /** The rectangle `getBoundingClientRect` returns. */
  datatype ClientRect = ClientRect(width: int, height: int, x: int, y: int,
                                   top: int, right: int, bottom: int, left: int)

  const ZeroRect := DomRect(0, 0, 0, 0)

  /** JavaScript truthiness of a coordinate (`null` and 0 are falsy). */
  predicate TruthyCoord(c: Option<int>) { c.Some? && c.value != 0 }

  /** `n || 0`. */
  function OrZero(c: Option<int>): int { if c.Some? then c.value else 0 }

  /** The offset the first qualifying call captures: the distance from the
      cursor to the rectangle's corner, when the coordinate is truthy and its
      axis is tracked; left unset otherwise. */
  function CapturedOffset(offset: Option<int>, coord: Option<int>, tracked: bool, corner: int): (r: Option<int>)
    ensures offset.Some? ==> r == offset
    ensures offset.None? ==> (r.Some? <==> TruthyCoord(coord) && tracked)
    ensures r.Some? && offset.None? ==> r.value == corner - coord.value
  {
    if offset.None? && TruthyCoord(coord) && tracked then Some(corner - coord.value) else offset
  }

  /** The rectangle of one call, from the base rectangle, the data and the
      offsets after capture.  The first call (`autoUpdate` false) places the
      point at the data's coordinates; later calls move with the rectangle
      less the captured offset.  The size is the base width only for the `y`
      axis and the base height only for the `x` axis. */
  function RectOf(base: DomRect, axis: Axis, dataX: Option<int>, dataY: Option<int>,
                  offsetX: Option<int>, offsetY: Option<int>, autoUpdate: bool): (r: ClientRect)
    ensures r.width == (if axis == AxisY then base.width else 0)
    ensures r.height == (if axis == AxisX then base.height else 0)
    ensures r.top == r.y && r.left == r.x && r.right == r.x + r.width && r.bottom == r.y + r.height
    ensures !autoUpdate && IsXAxis(axis) && dataX.Some? ==> r.x == dataX.value
    ensures autoUpdate || !IsXAxis(axis) || dataX.None? ==> r.x == base.x - OrZero(offsetX)
    ensures !autoUpdate && IsYAxis(axis) && dataY.Some? ==> r.y == dataY.value
    ensures autoUpdate || !IsYAxis(axis) || dataY.None? ==> r.y == base.y - OrZero(offsetY)
  {
    var x0 := base.x - OrZero(offsetX);
    var y0 := base.y - OrZero(offsetY);
    var width := if axis == AxisY then base.width else 0;
    var height := if axis == AxisX then base.height else 0;
    var x := if !autoUpdate && IsXAxis(axis) && dataX.Some? then dataX.value else x0;
    var y := if !autoUpdate && IsYAxis(axis) && dataY.Some? then dataY.value else y0;
    ClientRect(width, height, x, y, y, x + width, y + height, x)
  }

  /** The first call reports the data's coordinates on the tracked axes and
      the base rectangle's on the others. */
  lemma FirstCallPoint(base: DomRect, axis: Axis, dataX: Option<int>, dataY: Option<int>)
    ensures var offX := CapturedOffset(None, dataX, IsXAxis(axis), base.x);
      var offY := CapturedOffset(None, dataY, IsYAxis(axis), base.y);
      var r := RectOf(base, axis, dataX, dataY, offX, offY, false);
      && r.x == (if IsXAxis(axis) && dataX.Some? then dataX.value else base.x)
      && r.y == (if IsYAxis(axis) && dataY.Some? then dataY.value else base.y)
  {
  }

  /** After the offsets were captured, every later call with the same base
      rectangle keeps the point where the first call put it. */
  lemma AutoUpdateKeepsPoint(base: DomRect, axis: Axis, dataX: Option<int>, dataY: Option<int>)
    requires TruthyCoord(dataX) && TruthyCoord(dataY)
    ensures var offX := CapturedOffset(None, dataX, IsXAxis(axis), base.x);
      var offY := CapturedOffset(None, dataY, IsYAxis(axis), base.y);
      var first := RectOf(base, axis, dataX, dataY, offX, offY, false);
      var later := RectOf(base, axis, dataX, dataY, offX, offY, true);
      first == later
  {
  }

  /** A cursor coordinate of 0 is falsy, so no offset is captured for it and
      a later call reports the base rectangle's coordinate instead. */
  lemma ZeroCoordinateNotKept(base: DomRect, axis: Axis, dataY: Option<int>)
    requires IsXAxis(axis) && base.x != 0
    ensures var offX := CapturedOffset(None, Some(0), true, base.x);
      && offX.None?
      && RectOf(base, axis, Some(0), dataY, offX, None, false).x == 0
      && RectOf(base, axis, Some(0), dataY, offX, None, true).x == base.x
  {
  }

  /** The data a virtual element is created with. */
  datatype PointData = PointData(axis: Axis, pointerType: Option<string>, x: Option<int>, y: Option<int>)

  /** `createVirtualElement`: the offsets and the auto-update flag are the
      closure's variables; the context element is fixed at creation. */
  class VirtualElement {
    const contextElement: Option<NodeId>
    const data: PointData
    var offsetX: Option<int>
    var offsetY: Option<int>
    var isAutoUpdateEvent: bool

    constructor (contextElement: Option<NodeId>, data: PointData)
      ensures this.contextElement == contextElement && this.data == data
      ensures offsetX.None? && offsetY.None? && !isAutoUpdateEvent
    {
      this.contextElement := contextElement;
      this.data := data;
      offsetX := None;
      offsetY := None;
      isAutoUpdateEvent := false;
    }

    /** The first part of `getBoundingClientRect`: each offset is captured
        at most once, while unset, for a truthy coordinate on a tracked axis. */
    method CaptureOffsets(domRect: DomRect)
      modifies this
      ensures offsetX == CapturedOffset(old(offsetX), data.x, IsXAxis(data.axis), domRect.x)
      ensures offsetY == CapturedOffset(old(offsetY), data.y, IsYAxis(data.axis), domRect.y)
      ensures isAutoUpdateEvent == old(isAutoUpdateEvent)
    {
      if offsetX.None? && TruthyCoord(data.x) && IsXAxis(data.axis) {
        offsetX := Some(domRect.x - data.x.value);
      }
      if offsetY.None? && TruthyCoord(data.y) && IsYAxis(data.axis) {
        offsetY := Some(domRect.y - data.y.value);
      }
    }

    /** `getBoundingClientRect`, with `rectOf` giving the context element's
        own rectangle and zeros without one.  Every call after the first is
        an auto-update. */
    method GetBoundingClientRect(rectOf: NodeId -> DomRect) returns (r: ClientRect)
      modifies this
      ensures var base := if contextElement.Some? then rectOf(contextElement.value) else ZeroRect;
        && offsetX == CapturedOffset(old(offsetX), data.x, IsXAxis(data.axis), base.x)
        && offsetY == CapturedOffset(old(offsetY), data.y, IsYAxis(data.axis), base.y)
        && r == RectOf(base, data.axis, data.x, data.y, offsetX, offsetY, old(isAutoUpdateEvent))
      ensures isAutoUpdateEvent
    {
      var domRect := if contextElement.Some? then rectOf(contextElement.value) else ZeroRect;
      CaptureOffsets(domRect);
      var isX := IsXAxis(data.axis);
      var isY := IsYAxis(data.axis);
      var x := domRect.x - OrZero(offsetX);
      var y := domRect.y - OrZero(offsetY);
      var width := 0;
      var height := 0;
      if !isAutoUpdateEvent {
        width := if data.axis == AxisY then domRect.width else 0;
        height := if data.axis == AxisX then domRect.height else 0;
        x := if isX && data.x.Some? then data.x.value else x;
        y := if isY && data.y.Some? then data.y.value else y;
      } else {
        height := if data.axis == AxisX then domRect.height else height;
        width := if data.axis == AxisY then domRect.width else width;
      }
      r := ClientRect(width, height, x, y, y, x + width, y + height, x);
      ghost var spec := RectOf(domRect, data.axis, data.x, data.y, offsetX, offsetY, isAutoUpdateEvent);
      assert width == spec.width && height == spec.height;
      assert x == spec.x && y == spec.y;
      isAutoUpdateEvent := true;
    }
  }

  /** The reference cell: nothing, a DOM element, a virtual element of the
      caller's (with its optional context element), or one of this hook's. */
  datatype ReferenceValue =
    | NoReference
    | ElementReference(element: NodeId)
    | ForeignVirtual(context: Option<NodeId>)
    | PointReference(v: VirtualElement)

  /** The context element a new virtual element takes over from the current
      reference. */
  function ContextElementOf(reference: ReferenceValue): Option<NodeId> {
    match reference
    case NoReference => None
    case ElementReference(e) => Some(e)
    case ForeignVirtual(c) => c
    case PointReference(v) => v.contextElement
  }

  class ClientPointHook {
    const ctx: FloatingContext
    const enabled: bool
    const axis: Axis
    const x: Option<int>
    const y: Option<int>

    var pointerType: Option<string>
    var reference: ReferenceValue
    /** How many times `update` was called. */
    var updates: nat
    /** The window `mousemove` listener of the effect. */
    var listening: bool

    /** Defaults: enabled, axis `both`, no explicit coordinates. */
    constructor (ctx: FloatingContext, enabled: bool, axis: Axis, x: Option<int>, y: Option<int>,
                 reference: ReferenceValue)
      ensures this.ctx == ctx && this.enabled == enabled && this.axis == axis && this.x == x && this.y == y
      ensures this.reference == reference && pointerType.None? && updates == 0 && !listening
    {
      this.ctx := ctx;
      this.enabled := enabled;
      this.axis := axis;
      this.x := x;
      this.y := y;
      this.reference := reference;
      pointerType := None;
      updates := 0;
      listening := false;
    }

    /** `setReference`: a fresh virtual element at the coordinates replaces
        the reference, and the position is updated. */
    method SetReference(cx: Option<int>, cy: Option<int>)
      modifies this
      ensures reference.PointReference? && fresh(reference.v)
      ensures reference.v.data == PointData(axis, old(pointerType), cx, cy)
      ensures reference.v.contextElement == ContextElementOf(old(reference))
      ensures reference.v.offsetX.None? && reference.v.offsetY.None? && !reference.v.isAutoUpdateEvent
      ensures updates == old(updates) + 1
      ensures pointerType == old(pointerType) && listening == old(listening)
    {
      var v := new VirtualElement(ContextElementOf(reference), PointData(axis, pointerType, cx, cy));
      reference := PointReference(v);
      updates := updates + 1;
    }

    /** `handleReferenceEnterOrMove` (the reference's `onMouseEnter` and
        `onMouseMove`): nothing when an explicit coordinate is given. */
    method HandleReferenceEnterOrMove(clientX: int, clientY: int)
      modifies this
      ensures x.Some? || y.Some? ==> reference == old(reference) && updates == old(updates)
      ensures x.None? && y.None? ==>
        && reference.PointReference? && fresh(reference.v)
        && reference.v.data == PointData(axis, old(pointerType), Some(clientX), Some(clientY))
        && reference.v.contextElement == ContextElementOf(old(reference))
        && reference.v.offsetX.None? && reference.v.offsetY.None? && !reference.v.isAutoUpdateEvent
        && updates == old(updates) + 1
      ensures pointerType == old(pointerType) && listening == old(listening)
    {
      if x.Some? || y.Some? {
        return;
      }
      SetReference(Some(clientX), Some(clientY));
    }

    /** `onPointerDown` and `onPointerEnter`. */
    method OnPointer(pt: Option<string>)
      modifies this
      ensures pointerType == pt
      ensures reference == old(reference) && updates == old(updates) && listening == old(listening)
    {
      pointerType := pt;
    }

    /** `openCheck`: a mouse-like pointer follows while a floating element
        exists (even while it transitions out); other pointers only while
        open. */
    predicate OpenCheck(floatingPresent: bool)
      reads this, ctx
    {
      if IsMouseLikePointerType(pointerType, false) then floatingPresent else ctx.open
    }

    /** The effect: when enabled and open, the window listener is added
        unless the check fails or a coordinate is explicit. */
    method RunEffect(floatingPresent: bool)
      modifies this
      ensures listening == (old(listening) ||
        (enabled && ctx.open && OpenCheck(floatingPresent) && x.None? && y.None?))
      ensures pointerType == old(pointerType) && reference == old(reference) && updates == old(updates)
    {
      if enabled && ctx.open {
        if OpenCheck(floatingPresent) && x.None? && y.None? {
          listening := true;
        }
      }
    }

    /** The window's `mousemove`: outside the floating element the point
        follows the cursor; inside it, the listener removes itself. */
    method OnWindowMouseMove(clientX: int, clientY: int, target: Option<NodeId>, floating: Option<NodeId>,
                             within: (NodeId, NodeId) -> bool)
      requires listening
      modifies this
      ensures var inside := Contains(within, floating, target);
        && listening == !inside
        && (inside ==> reference == old(reference) && updates == old(updates))
        && (!inside ==> reference.PointReference? && fresh(reference.v) &&
                        reference.v.data == PointData(axis, old(pointerType), Some(clientX), Some(clientY)) &&
                        updates == old(updates) + 1)
      ensures pointerType == old(pointerType)
    {
      if !Contains(within, floating, target) {
        SetReference(Some(clientX), Some(clientY));
      } else {
        listening := false;
      }
    }

    /** The effect's cleanup. */
    method Dispose()
      modifies this
      ensures !listening
      ensures pointerType == old(pointerType) && reference == old(reference) && updates == old(updates)
    {
      listening := false;
    }

    /** `enabled ? { reference: referenceProps } : {}`. */
    function Contract(): (r: ElementProps)
      ensures !enabled ==> r == NoElementProps
      ensures enabled ==> r.reference.Props? && r.floating.NoProps? && r.item.NoProps?
    {
      HookProps(enabled,
        Props([("onPointerDown", Fn(PointerHandler)), ("onPointerEnter", Fn(PointerHandler + 1)),
               ("onMouseMove", Fn(EnterOrMoveHandler)), ("onMouseEnter", Fn(EnterOrMoveHandler))]),
        NoProps, NoProps)
    }
  }

  /** Handlers of the hook, by identity: the mouse enter and move share one. */
  const PointerHandler: nat := 700
  const EnterOrMoveHandler: nat := 702

  /** The virtual element a cursor move installs reports the cursor on the
      first call and keeps it on the auto-updates that follow while the
      reference's rectangle stays put. */
  method FollowCursor(clientX: int, clientY: int, rectOf: NodeId -> DomRect, element: NodeId)
    returns (first: ClientRect, later: ClientRect)
    requires clientX != 0 && clientY != 0
    ensures first.x == clientX && first.y == clientY
    ensures later == first
  {
    var ctx := new FloatingContext(true);
    var hook := new ClientPointHook(ctx, true, Both, None, None, ElementReference(element));
    hook.HandleReferenceEnterOrMove(clientX, clientY);
    var v := hook.reference.v;
    first := v.GetBoundingClientRect(rectOf);
    later := v.GetBoundingClientRect(rectOf);
    FirstCallPoint(rectOf(element), Both, Some(clientX), Some(clientY));
    AutoUpdateKeepsPoint(rectOf(element), Both, Some(clientX), Some(clientY));
  }
}
