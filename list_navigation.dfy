/** `useListNavigation`: arrow-key navigation of the items of an open list,
    opening the list from its reference element, and closing it on Escape. */
module ListNavigation {
  import opened Common
  import opened Props

  const ARROW_UP := "ArrowUp"
  const ARROW_DOWN := "ArrowDown"
  const ARROW_RIGHT := "ArrowRight"
  const ARROW_LEFT := "ArrowLeft"
  const ESCAPE := "Escape"

  datatype Orientation = Vertical | Horizontal | Both

  /** `focusItemOnOpen`: `'auto'` or an explicit boolean. */
  datatype FocusItemOnOpen = Auto | Explicit(focus: bool)

  /** The options the handlers read; `Defaults` holds the values used when an
      option is not given. */
  datatype ListNavigationProps = ListNavigationProps(
    enabled: bool,
    focusItemOnOpen: FocusItemOnOpen,
    openOnArrowKeyDown: bool,
    loop: bool,
    rtl: bool,
    orientation: Orientation)

  const Defaults := ListNavigationProps(true, Auto, true, false, false, Vertical)

  /** `doSwitch`: the vertical flag, the horizontal flag, or either. */
  function DoSwitch(orientation: Orientation, vertical: bool, horizontal: bool): (r: bool)
    ensures r ==> vertical || horizontal
    ensures orientation == Both ==> (r <==> vertical || horizontal)
    ensures orientation == Vertical ==> (r <==> vertical)
    ensures orientation == Horizontal ==> (r <==> horizontal)
  {
    match orientation
    case Vertical => vertical
    case Horizontal => horizontal
    case Both => vertical || horizontal
  }

  predicate IsMainOrientationKey(key: string, orientation: Orientation) {
    DoSwitch(orientation, key == ARROW_UP || key == ARROW_DOWN, key == ARROW_LEFT || key == ARROW_RIGHT)
  }

  predicate IsMainOrientationToEndKey(key: string, orientation: Orientation, rtl: bool) {
    DoSwitch(orientation, key == ARROW_DOWN, if rtl then key == ARROW_LEFT else key == ARROW_RIGHT) ||
    key == "Enter" || key == " " || key == ""
  }

  predicate IsCrossOrientationOpenKey(key: string, orientation: Orientation, rtl: bool) {
    DoSwitch(orientation, if rtl then key == ARROW_LEFT else key == ARROW_RIGHT, key == ARROW_DOWN)
  }

  predicate IsCrossOrientationCloseKey(key: string, orientation: Orientation, rtl: bool) {
    DoSwitch(orientation, if rtl then key == ARROW_RIGHT else key == ARROW_LEFT, key == ARROW_UP)
  }

  /** Left and right exchanged, as a right-to-left layout sees them. */
  function Mirror(key: string): string {
    if key == ARROW_LEFT then ARROW_RIGHT else if key == ARROW_RIGHT then ARROW_LEFT else key
  }

  /** Right-to-left only exchanges the horizontal arrows: each key
      classification under `rtl` is the left-to-right one of the mirrored
      key, and the main-orientation test ignores direction. */
  lemma RtlMirrorsHorizontalArrows(key: string, orientation: Orientation)
    ensures IsMainOrientationToEndKey(key, orientation, true) == IsMainOrientationToEndKey(Mirror(key), orientation, false)
    ensures IsCrossOrientationOpenKey(key, orientation, true) == IsCrossOrientationOpenKey(Mirror(key), orientation, false)
    ensures IsCrossOrientationCloseKey(key, orientation, true) == IsCrossOrientationCloseKey(Mirror(key), orientation, false)
    ensures IsMainOrientationKey(key, orientation) == IsMainOrientationKey(Mirror(key), orientation)
  {
  }

  /** Enter, Space and the empty key always count as moving to the end. */
  lemma ConfirmKeysMoveToEnd(orientation: Orientation, rtl: bool)
    ensures IsMainOrientationToEndKey("Enter", orientation, rtl)
    ensures IsMainOrientationToEndKey(" ", orientation, rtl)
    ensures IsMainOrientationToEndKey("", orientation, rtl)
  {
  }

  /** No key both opens and closes across the orientation, and in a single
      orientation no cross key is also a main-orientation key. */
  lemma CrossKeysDisjoint(key: string, orientation: Orientation, rtl: bool)
    ensures !(IsCrossOrientationOpenKey(key, orientation, rtl) && IsCrossOrientationCloseKey(key, orientation, rtl))
    ensures orientation != Both && IsMainOrientationKey(key, orientation) ==>
      !IsCrossOrientationOpenKey(key, orientation, rtl) && !IsCrossOrientationCloseKey(key, orientation, rtl)
  {
  }

  /** ArrowDown: the next item; from the last one, the first when looping and
      the last otherwise. */
  function NextIndexDown(index: int, count: nat, loop: bool): (r: int)
    ensures count >= 1 && -1 <= index < count ==> 0 <= r < count
    ensures count >= 1 && index == count - 1 ==> r == (if loop then 0 else count - 1)
    ensures index != count - 1 ==> r == index + 1
  {
    if index == count - 1 then (if loop then 0 else index) else index + 1
  }

  /** ArrowUp: the previous item; from the first one (or from none), the last
      when looping and the first otherwise. */
  function NextIndexUp(index: int, count: nat, loop: bool): (r: int)
    ensures count >= 1 && index < count ==> 0 <= r < count
    ensures index <= 0 ==> r == (if loop then count - 1 else 0)
    ensures index > 0 ==> r == index - 1
  {
    if index <= 0 then (if loop then count - 1 else 0) else index - 1
  }

  /** With looping, ArrowDown and ArrowUp undo each other on every item;
      without it, they do so away from the ends. */
  lemma DownUpRoundTrip(index: int, count: nat, loop: bool)
    requires count >= 1 && 0 <= index < count
    ensures loop || index < count - 1 ==> NextIndexUp(NextIndexDown(index, count, loop), count, loop) == index
    ensures loop || index > 0 ==> NextIndexDown(NextIndexUp(index, count, loop), count, loop) == index
  {
  }

  /** `listRef.filter(item => item != null).length`. */
  function CountPresent(listRef: seq<Option<NodeId>>): (n: nat)
    ensures n <= |listRef|
    ensures n == 0 <==> forall i :: 0 <= i < |listRef| ==> listRef[i].None?
  {
    if listRef == [] then 0
    else CountPresent(listRef[..|listRef| - 1]) + (if listRef[|listRef| - 1].Some? then 1 else 0)
  }

  /** The reference's `onKeyDown`: a main-orientation arrow opens the list
      (with `focusItemOnOpen: 'auto'` and `openOnArrowKeyDown`), and is
      prevented while it is open; a cross-orientation open key also opens it.
      The list is only ever opened here, never closed, and a list that is
      already open is left untouched. */
  method ReferenceOnKeyDown(ctx: FloatingContext, props: ListNavigationProps, key: string)
    returns (prevented: bool)
    modifies ctx
    ensures prevented == (props.enabled && props.focusItemOnOpen == Auto &&
                          IsMainOrientationKey(key, props.orientation) && old(ctx.open))
    ensures var opens := props.enabled && !old(ctx.open) &&
      ((props.focusItemOnOpen == Auto && IsMainOrientationKey(key, props.orientation) && props.openOnArrowKeyDown) ||
       IsCrossOrientationOpenKey(key, props.orientation, props.rtl));
      if opens then ctx.open && ctx.reason == Some(ListNavigation)
      else ctx.open == old(ctx.open) && ctx.reason == old(ctx.reason)
  {
    prevented := false;
    if !props.enabled {
      return;
    }
    if props.focusItemOnOpen == Auto && IsMainOrientationKey(key, props.orientation) {
      if ctx.open {
        prevented := true;
      }
      if !ctx.open && props.openOnArrowKeyDown {
        ctx.SetOpen(true, ListNavigation);
      }
    }
    if IsCrossOrientationOpenKey(key, props.orientation, props.rtl) {
      if !ctx.open {
        ctx.SetOpen(true, ListNavigation);
      }
    }
  }

  /** The floating element's `onKeyDown`, while the list is open and has at
      least one item: ArrowDown and ArrowUp are prevented and ask `onNavigate`
      for the next index (an unset `activeIndex` counts as -1), and Escape
      closes the list with reason `escape-key`.  Nothing else happens; in
      particular orientation plays no part here. */
  method FloatingOnKeyDown(ctx: FloatingContext, props: ListNavigationProps, key: string,
                           listRef: Option<seq<Option<NodeId>>>, activeIndex: Option<int>)
    returns (navigate: Option<int>, prevented: bool)
    modifies ctx
    ensures var acts := props.enabled && old(ctx.open) && listRef.Some? && CountPresent(listRef.value) > 0;
      var index := if activeIndex.Some? then activeIndex.value else -1;
      && prevented == (acts && (key == ARROW_DOWN || key == ARROW_UP))
      && navigate == (if acts && key == ARROW_DOWN then Some(NextIndexDown(index, CountPresent(listRef.value), props.loop))
                      else if acts && key == ARROW_UP then Some(NextIndexUp(index, CountPresent(listRef.value), props.loop))
                      else None)
      && (if acts && key == ESCAPE then !ctx.open && ctx.reason == Some(EscapeKey)
          else ctx.open == old(ctx.open) && ctx.reason == old(ctx.reason))
  {
    navigate := None;
    prevented := false;
    if !props.enabled {
      return;
    }
    if ctx.open && listRef.Some? {
      var count := CountPresent(listRef.value);
      if count == 0 {
        return;
      }
      var index := if activeIndex.Some? then activeIndex.value else -1;
      if key == ARROW_DOWN {
        prevented := true;
        var nextIndex := if index == count - 1 then (if props.loop then 0 else index) else index + 1;
        navigate := Some(nextIndex);
      } else if key == ARROW_UP {
        prevented := true;
        var prevIndex := if index <= 0 then (if props.loop then count - 1 else 0) else index - 1;
        navigate := Some(prevIndex);
      } else if key == ESCAPE {
        ctx.SetOpen(false, EscapeKey);
      }
    }
  }

  /** The item props getter: `role: 'option'`, and `aria-selected` (the
      `selected` value) only when `active` is truthy. */
  function ItemProps(userProps: Object): (r: Object)
    ensures Get(r, "role") == Some(Str("option"))
    ensures Get(r, "aria-selected") ==
      if Truthy(GetOr(userProps, "active")) then Some(GetOr(userProps, "selected")) else None
  {
    var active := GetOr(userProps, "active");
    var selected := GetOr(userProps, "selected");
    [("role", Str("option"))] + (if Truthy(active) then [("aria-selected", if Truthy(active) then selected else active)] else [])
  }

  /** Handlers of the hook, by identity. */
  const ReferencePointerDownHandler: nat := 100
  const ReferenceKeyDownHandler: nat := 101
  const FloatingKeyDownHandler: nat := 102

  /** `enabled ? { reference, floating, item } : {}`. */
  function Contract(props: ListNavigationProps): (r: ElementProps)
    ensures !props.enabled ==> r == NoElementProps
    ensures props.enabled ==> r.reference.Props? && r.floating.Props? && r.item.Getter?
  {
    HookProps(props.enabled,
      Props([("onPointerDown", Fn(ReferencePointerDownHandler)), ("onKeyDown", Fn(ReferenceKeyDownHandler))]),
      Props([("onKeyDown", Fn(FloatingKeyDownHandler))]),
      Getter(o => Some(ItemProps(o))))
  }
}
