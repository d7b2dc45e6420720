/** `useDismiss`: closing the floating element on Escape, on a press outside
    it, and on a scroll of an overflow ancestor, plus the document and
    ancestor listeners the hook keeps registered while it is open. */
module Dismiss {
  import opened Common
  import opened Props

  /** The `bubbles` / `capture` options: a boolean for both kinds of
      dismissal, an object with optional fields, or nothing. */
  datatype Normalizable = NormBool(b: bool) | NormObj(escapeKey: Option<bool>, outsidePress: Option<bool>) | NormUndefined

  datatype Normalized = Normalized(escapeKey: bool, outsidePress: bool)

  function OrElse(o: Option<bool>, d: bool): bool {
    if o.Some? then o.value else d
  }

  /** `normalizeProp`: a boolean applies to both; otherwise `escapeKey`
      defaults to false and `outsidePress` to true. */
  function NormalizeProp(p: Normalizable): (r: Normalized)
    ensures p.NormBool? ==> r.escapeKey == p.b && r.outsidePress == p.b
    ensures p.NormUndefined? ==> !r.escapeKey && r.outsidePress
    ensures p.NormObj? ==> (r.escapeKey <==> p.escapeKey == Some(true))
    ensures p.NormObj? ==> (!r.outsidePress <==> p.outsidePress == Some(false))
  {
    match p
    case NormBool(b) => Normalized(b, b)
    case NormObj(e, o) => Normalized(OrElse(e, false), OrElse(o, true))
    case NormUndefined => Normalized(false, true)
  }

  /** The `outsidePress` option: a boolean, or a function (which is truthy;
      the function itself is never consulted). */
  datatype OutsidePressOption = OutsidePressBool(b: bool) | OutsidePressFn

  predicate OutsidePressOn(o: OutsidePressOption) {
    o.OutsidePressFn? || o.b
  }

  /** The `outsidePressEvent` option. */
  datatype PressEventType = PointerDown | MouseDown | ClickPress

  /** One ancestor on the way from a press target up the tree: its
      identity, whether it is an element, and whether it is the last
      traversable node (`html`, `body` or the document). */
  datatype ChainNode = ChainNode(id: NodeId, isElement: bool, isLast: bool)

  /** The computed style fields the scrollbar test reads. */
  datatype TargetStyle = TargetStyle(overflowX: string, overflowY: string, direction: string)

  /** The box fields of the target the scrollbar test reads. */
  datatype TargetBox = TargetBox(clientWidth: int, scrollWidth: int, clientHeight: int, scrollHeight: int,
                                 offsetWidth: int)

  /** A press, as `closeOnPressOutside` inspects it: the target, whether it
      is a last traversable node, its parents (nearest first), its style and
      box, and the press offset inside it. */
  datatype Press = Press(target: Option<Target>, targetIsLast: bool, parents: seq<ChainNode>,
                         style: TargetStyle, box: TargetBox, offsetX: int, offsetY: int)

  /** Climbing from `cur`: move to the next parent while it is an element
      and not a last traversable node. */
  function Climb(cur: NodeId, parents: seq<ChainNode>): NodeId
    decreases |parents|
  {
    if parents == [] || parents[0].isLast || !parents[0].isElement then cur
    else Climb(parents[0].id, parents[1..])
  }

  /** How many parents the climb passes. */
  function ClimbSteps(parents: seq<ChainNode>): (n: nat)
    ensures n <= |parents|
    decreases |parents|
  {
    if parents == [] || parents[0].isLast || !parents[0].isElement then 0
    else 1 + ClimbSteps(parents[1..])
  }

  /** The climb passes exactly the leading run of non-last elements and ends
      on the last of them (or where it started, when there is none). */
  lemma {:induction false} ClimbCharacterised(cur: NodeId, parents: seq<ChainNode>)
    ensures var n := ClimbSteps(parents);
      && (forall k :: 0 <= k < n ==> parents[k].isElement && !parents[k].isLast)
      && (n < |parents| ==> parents[n].isLast || !parents[n].isElement)
      && Climb(cur, parents) == (if n == 0 then cur else parents[n - 1].id)
    decreases |parents|
  {
    if parents == [] || parents[0].isLast || !parents[0].isElement {
    } else {
      var rest := parents[1..];
      ClimbCharacterised(parents[0].id, rest);
      var m := ClimbSteps(rest);
      assert ClimbSteps(parents) == m + 1;
      forall k | 0 <= k < m + 1
        ensures parents[k].isElement && !parents[k].isLast
      {
        if k > 0 {
          assert parents[k] == rest[k - 1];
        }
      }
      if m > 0 {
        assert parents[m] == rest[m - 1];
      }
      if m + 1 < |parents| {
        assert parents[m + 1] == rest[m];
      }
    }
  }

  /** `targetRootAncestor`: none unless the target is an element; the
      target itself when it is a last traversable node; otherwise the end of
      the climb. */
  function RootAncestor(press: Press): Option<NodeId> {
    if press.target.None? || !press.target.value.IsElement() then None
    else if press.targetIsLast then Some(press.target.value.Id())
    else Some(Climb(press.target.value.Id(), press.parents))
  }

  /** The `while` loop that finds the target's root ancestor. */
  method TargetRootAncestor(press: Press) returns (root: Option<NodeId>)
    ensures root == RootAncestor(press)
  {
    root := if press.target.Some? && press.target.value.IsElement() then Some(press.target.value.Id()) else None;
    var rootIsLast := press.targetIsLast;
    var i := 0;
    while root.Some? && !rootIsLast && i < |press.parents|
      invariant 0 <= i <= |press.parents|
      invariant root.Some? ==> press.target.Some? && press.target.value.IsElement()
      invariant root.None? ==> RootAncestor(press).None?
      invariant root.Some? && rootIsLast ==> i == 0 && root == RootAncestor(press)
      invariant root.Some? && !rootIsLast ==>
        (!press.targetIsLast && Climb(root.value, press.parents[i..]) == Climb(press.target.value.Id(), press.parents))
      decreases |press.parents| - i
    {
      var next := press.parents[i];
      if next.isLast || !next.isElement {
        break;
      }
      assert press.parents[i..][1..] == press.parents[i + 1..];
      root := Some(next.id);
      rootIsLast := next.isLast;
      i := i + 1;
    }
  }

  /** `s.includes(p)`. */
  predicate HasSubstring(s: string, p: string)
    decreases |s|
  {
    p <= s || (|s| > 0 && HasSubstring(s[1..], p))
  }

  /** `/auto|scroll/.test(s)`. */
  predicate ScrollRe(s: string) {
    HasSubstring(s, "auto") || HasSubstring(s, "scroll")
  }

  /** A string without the first character of `p` does not contain `p`. */
  lemma {:induction false} NoFirstCharNoSubstring(s: string, p: string)
    requires |p| > 0 && forall i :: 0 <= i < |s| ==> s[i] != p[0]
    ensures !HasSubstring(s, p)
    decreases |s|
  {
    if |s| > 0 {
      assert s[0] != p[0];
      NoFirstCharNoSubstring(s[1..], p);
    }
  }

  /** The values that make an axis scrollable, and two that do not. */
  lemma ScrollReExamples()
    ensures ScrollRe("auto") && ScrollRe("scroll") && ScrollRe("overlay auto")
    ensures !ScrollRe("hidden") && !ScrollRe("clip") && !ScrollRe("")
  {
    assert "auto" <= "auto";
    assert "scroll" <= "scroll";
    assert "overlay auto"[8..] == "auto";
    assert HasSubstring("overlay auto"[8..], "auto");
    NoFirstCharNoSubstring("hidden", "auto");
    NoFirstCharNoSubstring("hidden", "scroll");
    NoFirstCharNoSubstring("clip", "auto");
    NoFirstCharNoSubstring("clip", "scroll");
  }

  predicate CanScrollX(press: Press) {
    (press.targetIsLast || ScrollRe(press.style.overflowX)) &&
    press.box.clientWidth > 0 && press.box.scrollWidth > press.box.clientWidth
  }

  predicate CanScrollY(press: Press) {
    (press.targetIsLast || ScrollRe(press.style.overflowY)) &&
    press.box.clientHeight > 0 && press.box.scrollHeight > press.box.clientHeight
  }

  /** The vertical scrollbar is right of the client area, or left of it in
      a right-to-left layout. */
  predicate PressedVerticalScrollbar(press: Press) {
    CanScrollY(press) &&
    if press.style.direction == "rtl" then press.offsetX <= press.box.offsetWidth - press.box.clientWidth
    else press.offsetX > press.box.clientWidth
  }

  predicate PressedHorizontalScrollbar(press: Press) {
    CanScrollX(press) && press.offsetY > press.box.clientHeight
  }

  /** The scrollbar test applies to an HTML element target while a floating
      element exists. */
  predicate OnScrollbar(press: Press, floating: Option<NodeId>) {
    press.target.Some? && press.target.value.IsHTMLElement() && floating.Some? &&
    (PressedVerticalScrollbar(press) || PressedHorizontalScrollbar(press))
  }

  /** In a left-to-right layout, a press inside the client area is never a
      scrollbar press; a press on content that cannot scroll never is. */
  lemma ClientAreaIsNotScrollbar(press: Press, floating: Option<NodeId>)
    ensures (press.style.direction != "rtl" && press.offsetX <= press.box.clientWidth &&
             press.offsetY <= press.box.clientHeight) ==> !OnScrollbar(press, floating)
    ensures !CanScrollX(press) && !CanScrollY(press) ==> !OnScrollbar(press, floating)
  {
  }

  /** The third-party check: markers exist, the target is an element that
      does not contain the floating element, and its root ancestor contains
      none of the markers. */
  predicate InjectedTarget(press: Press, markers: seq<NodeId>, floating: Option<NodeId>,
                           within: (NodeId, NodeId) -> bool)
  {
    && |markers| > 0
    && press.target.Some? && press.target.value.IsElement()
    && !Contains(within, Some(press.target.value.Id()), floating)
    && forall i :: 0 <= i < |markers| ==> !Contains(within, RootAncestor(press), Some(markers[i]))
  }

  /** `isEventTargetWithin` the floating or the reference element. */
  predicate PressInside(press: Press, floating: Option<NodeId>, reference: Option<NodeId>,
                        within: (NodeId, NodeId) -> bool)
  {
    Contains(within, floating, TargetId(press.target)) || Contains(within, reference, TargetId(press.target))
  }

  datatype PressOutcome = IgnoredInjected | IgnoredScrollbar | IgnoredInside | Dismissed

  /** The decision chain of `closeOnPressOutside`, in the order of its checks. */
  function PressOutcomeOf(press: Press, markers: seq<NodeId>, floating: Option<NodeId>, reference: Option<NodeId>,
                          within: (NodeId, NodeId) -> bool): PressOutcome
  {
    if InjectedTarget(press, markers, floating, within) then IgnoredInjected
    else if OnScrollbar(press, floating) then IgnoredScrollbar
    else if PressInside(press, floating, reference, within) then IgnoredInside
    else Dismissed
  }

  /** A press dismisses exactly when it passes all three checks; in
      particular a press within the floating or reference element, or on a
      scrollbar, never dismisses. */
  lemma DismissedIff(press: Press, markers: seq<NodeId>, floating: Option<NodeId>, reference: Option<NodeId>,
                     within: (NodeId, NodeId) -> bool)
    ensures PressOutcomeOf(press, markers, floating, reference, within) == Dismissed <==>
      !InjectedTarget(press, markers, floating, within) && !OnScrollbar(press, floating) &&
      !PressInside(press, floating, reference, within)
  {
  }

  /** Without inert markers the third-party check never applies. */
  lemma NoMarkersNoInjection(press: Press, floating: Option<NodeId>, within: (NodeId, NodeId) -> bool)
    ensures !InjectedTarget(press, [], floating, within)
  {
  }

  /** Listeners the hook adds: Escape on the document, the outside press on
      the document, scroll on an ancestor. */
  datatype Listener = KeyDownListener(capture: bool) | PressListener(event: PressEventType, capture: bool)
                    | ScrollListener(target: NodeId)

  /** The reference as the ancestor-scroll setup sees it: an element with
      its overflow ancestors, a virtual element (with the overflow ancestors
      of its `contextElement`, if it has one), or nothing. */
  datatype ReferenceNode = RefElement(ancestors: seq<NodeId>) | RefVirtual(contextAncestors: Option<seq<NodeId>>) | RefMissing

  /** The overflow ancestors of reference, floating element and context
      element, concatenated in that order (none without `ancestorScroll`). */
  function ScrollAncestors(ancestorScroll: bool, reference: ReferenceNode, floatingAncestors: Option<seq<NodeId>>): seq<NodeId> {
    if !ancestorScroll then []
    else
      (if reference.RefElement? then reference.ancestors else []) +
      (if floatingAncestors.Some? then floatingAncestors.value else []) +
      (if reference.RefVirtual? && reference.contextAncestors.Some? then reference.contextAncestors.value else [])
  }

  /** The ancestors that get a scroll listener: all but the visual viewport. */
  function ScrollTargets(ancestors: seq<NodeId>, visualViewport: Option<NodeId>): (r: seq<NodeId>)
    ensures visualViewport.Some? ==> visualViewport.value !in r
    ensures forall i :: 0 <= i < |r| ==> r[i] in ancestors
  {
    if visualViewport.Some? then
      WithoutMembers(ancestors, visualViewport.value);
      Without(ancestors, visualViewport.value)
    else ancestors
  }

  function ScrollListeners(targets: seq<NodeId>): (r: seq<Listener>)
    ensures |r| == |targets|
    ensures forall i :: 0 <= i < |r| ==> r[i] == ScrollListener(targets[i])
  {
    seq(|targets|, i requires 0 <= i < |targets| => ScrollListener(targets[i]))
  }

  /** The `ancestors.forEach` loop: one scroll listener per target, in order. */
  method RegisterScrollListeners(targets: seq<NodeId>) returns (scroll: seq<Listener>)
    ensures scroll == ScrollListeners(targets)
  {
    scroll := [];
    for i := 0 to |targets|
      invariant scroll == ScrollListeners(targets[..i])
    {
      ScrollListenersSnoc(targets, i);
      scroll := scroll + [ScrollListener(targets[i])];
    }
    assert targets[..|targets|] == targets;
  }

  lemma MultisetPrefixSnoc<T>(s: seq<T>, i: nat)
    requires i < |s|
    ensures multiset(s[..i + 1]) == multiset(s[..i]) + multiset{s[i]}
  {
    assert s[..i + 1] == s[..i] + [s[i]];
  }

  lemma SubtractTwice<T>(r: multiset<T>, a: multiset<T>, b: multiset<T>)
    ensures r - a - b == r - (a + b)
  {
  }

  lemma AddThenSubtract<T>(r: multiset<T>, a: multiset<T>)
    ensures r + a - a == r
  {
  }

  lemma ScrollListenersSnoc(targets: seq<NodeId>, i: nat)
    requires i < |targets|
    ensures ScrollListeners(targets[..i + 1]) == ScrollListeners(targets[..i]) + [ScrollListener(targets[i])]
  {
    var a := ScrollListeners(targets[..i + 1]);
    var b := ScrollListeners(targets[..i]) + [ScrollListener(targets[i])];
    assert |a| == |b|;
    forall k | 0 <= k < |a|
      ensures a[k] == b[k]
    {
      if k < i {
        assert targets[..i + 1][k] == targets[..i][k];
      }
    }
  }

  class DismissHook {
    const ctx: FloatingContext
    const enabled: bool
    const escapeKey: bool
    const outsidePress: OutsidePressOption
    const outsidePressEvent: PressEventType
    const ancestorScroll: bool
    const bubbles: Normalizable
    const capture: Normalizable

    /** The listeners currently registered by the hook, and the teardown
        list of the last effect run. */
    var registered: multiset<Listener>
    var teardown: seq<Listener>

    ghost predicate Valid()
      reads this
    {
      multiset(teardown) <= registered
    }

    /** Defaults: enabled, `escapeKey` and `outsidePress` on, press event
        `pointerdown`, no ancestor scroll. */
    constructor (ctx: FloatingContext, enabled: bool, escapeKey: bool, outsidePress: OutsidePressOption,
                 outsidePressEvent: PressEventType, ancestorScroll: bool, bubbles: Normalizable, capture: Normalizable)
      ensures Valid()
      ensures this.ctx == ctx && this.enabled == enabled && this.escapeKey == escapeKey
      ensures this.outsidePress == outsidePress && this.outsidePressEvent == outsidePressEvent
      ensures this.ancestorScroll == ancestorScroll && this.bubbles == bubbles && this.capture == capture
      ensures registered == multiset{} && teardown == []
    {
      this.ctx := ctx;
      this.enabled := enabled;
      this.escapeKey := escapeKey;
      this.outsidePress := outsidePress;
      this.outsidePressEvent := outsidePressEvent;
      this.ancestorScroll := ancestorScroll;
      this.bubbles := bubbles;
      this.capture := capture;
      registered := multiset{};
      teardown := [];
    }

    /** The document listeners of one effect run: Escape (with
        `escapeKey`), then the outside press (with `outsidePress`). */
    function DocumentListeners(): (r: seq<Listener>)
      ensures forall i :: 0 <= i < |r| ==> !r[i].ScrollListener?
    {
      (if escapeKey then [KeyDownListener(NormalizeProp(capture).escapeKey)] else []) +
      (if OutsidePressOn(outsidePress) then [PressListener(outsidePressEvent, NormalizeProp(capture).outsidePress)] else [])
    }

    /** What one run of the effect registers: nothing unless enabled and
        open; then the Escape listener (with `escapeKey`), the press
        listener (with `outsidePress`), and a scroll listener per ancestor. */
    function EffectListeners(open: bool, reference: ReferenceNode, floatingAncestors: Option<seq<NodeId>>,
                             visualViewport: Option<NodeId>): (r: seq<Listener>)
      ensures !enabled || !open ==> r == []
      ensures visualViewport.Some? ==> ScrollListener(visualViewport.value) !in r
      ensures enabled && open && escapeKey ==> KeyDownListener(NormalizeProp(capture).escapeKey) in r
      ensures enabled && open && OutsidePressOn(outsidePress) ==>
        PressListener(outsidePressEvent, NormalizeProp(capture).outsidePress) in r
    {
      if !enabled || !open then []
      else
        var targets := ScrollTargets(ScrollAncestors(ancestorScroll, reference, floatingAncestors), visualViewport);
        var scroll := ScrollListeners(targets);
        assert visualViewport.Some? ==> forall i :: 0 <= i < |scroll| ==> scroll[i] != ScrollListener(visualViewport.value);
        DocumentListeners() + scroll
    }

    /** The effect's cleanup: every listener of the last run is removed
        (and each was registered, by `Valid`). */
    method Teardown()
      requires Valid()
      modifies this
      ensures Valid()
      ensures teardown == [] && registered == old(registered) - multiset(old(teardown))
    {
      var i := 0;
      while i < |teardown|
        invariant 0 <= i <= |teardown|
        invariant teardown == old(teardown)
        invariant registered == old(registered) - multiset(teardown[..i])
      {
        MultisetPrefixSnoc(teardown, i);
        SubtractTwice(old(registered), multiset(teardown[..i]), multiset{teardown[i]});
        registered := registered - multiset{teardown[i]};
        i := i + 1;
      }
      assert teardown[..i] == teardown;
      teardown := [];
    }

    /** One run of the effect: the previous run is torn down, then the
        listeners of `EffectListeners` are registered and kept for the next
        teardown. */
    method RunEffect(reference: ReferenceNode, floatingAncestors: Option<seq<NodeId>>, visualViewport: Option<NodeId>)
      requires Valid()
      modifies this
      ensures Valid()
      ensures teardown == EffectListeners(ctx.open, reference, floatingAncestors, visualViewport)
      ensures registered == old(registered) - multiset(old(teardown)) + multiset(teardown)
    {
      Teardown();
      if !enabled || !ctx.open {
        return;
      }
      var targets := ScrollTargets(ScrollAncestors(ancestorScroll, reference, floatingAncestors), visualViewport);
      var scroll := RegisterScrollListeners(targets);
      Install(DocumentListeners() + scroll);
    }

    /** Registers the listeners of one run and keeps them for its teardown. */
    method Install(added: seq<Listener>)
      requires Valid() && teardown == []
      modifies this
      ensures Valid()
      ensures teardown == added && registered == old(registered) + multiset(added)
    {
      registered := registered + multiset(added);
      teardown := added;
    }

    /** `closeOnEscapeKeyDown` (the document listener and the floating
        element's `onKeyDown`): closes with reason `escape-key` exactly when
        open, enabled, `escapeKey` on and the key is Escape; stops the
        event's propagation then unless Escape is set to bubble. */
    method CloseOnEscapeKeyDown(ev: KeyEvent) returns (stopPropagation: bool)
      modifies ctx
      ensures var fires := old(ctx.open) && enabled && escapeKey && ev.key == "Escape";
        && stopPropagation == (fires && !NormalizeProp(bubbles).escapeKey)
        && if fires then !ctx.open && ctx.reason == Some(EscapeKey)
           else ctx.open == old(ctx.open) && ctx.reason == old(ctx.reason)
    {
      stopPropagation := false;
      if !ctx.open || !enabled || !escapeKey || ev.key != "Escape" {
        return;
      }
      if !NormalizeProp(bubbles).escapeKey {
        stopPropagation := true;
      }
      ctx.SetOpen(false, EscapeKey);
    }

    /** `closeOnPressOutside`: runs the three checks and closes with reason
        `outside-press` when none of them stops it. */
    method CloseOnPressOutside(press: Press, markers: seq<NodeId>, floating: Option<NodeId>, reference: Option<NodeId>,
                               within: (NodeId, NodeId) -> bool)
      returns (outcome: PressOutcome)
      modifies ctx
      ensures outcome == PressOutcomeOf(press, markers, floating, reference, within)
      ensures if outcome == Dismissed then !ctx.open && ctx.reason == Some(OutsidePress)
              else ctx.open == old(ctx.open) && ctx.reason == old(ctx.reason)
    {
      var root := TargetRootAncestor(press);
      if |markers| > 0 && press.target.Some? && press.target.value.IsElement() &&
         !Contains(within, Some(press.target.value.Id()), floating) &&
         forall i :: 0 <= i < |markers| ==> !Contains(within, root, Some(markers[i])) {
        return IgnoredInjected;
      }
      if press.target.Some? && press.target.value.IsHTMLElement() && floating.Some? {
        if PressedVerticalScrollbar(press) || PressedHorizontalScrollbar(press) {
          return IgnoredScrollbar;
        }
      }
      if Contains(within, floating, TargetId(press.target)) || Contains(within, reference, TargetId(press.target)) {
        return IgnoredInside;
      }
      ctx.SetOpen(false, OutsidePress);
      outcome := Dismissed;
    }

    /** The scroll listener of an ancestor: closes with reason
        `ancestor-scroll`. */
    method OnAncestorScroll()
      modifies ctx
      ensures !ctx.open && ctx.reason == Some(AncestorScroll)
    {
      ctx.SetOpen(false, AncestorScroll);
    }

    /** `enabled ? { reference: {}, floating: { onKeyDown, onMouseDown } } : {}`. */
    function Contract(): (r: ElementProps)
      ensures !enabled ==> r == NoElementProps
      ensures enabled ==> r.reference == Props([]) && r.floating.Props? && r.item.NoProps?
      ensures enabled ==> Get(r.floating.obj, "onKeyDown") == Some(Fn(EscapeKeyDownHandler))
    {
      HookProps(enabled, Props([]),
        Props([("onKeyDown", Fn(EscapeKeyDownHandler)), ("onMouseDown", Fn(FloatingMouseDownHandler))]),
        NoProps)
    }
  }

  /** Handlers of the hook, by identity. */
  const EscapeKeyDownHandler: nat := 500
  const FloatingMouseDownHandler: nat := 501

  /** Opening registers the effect's listeners; closing and re-running the
      effect removes exactly those again, leaving the registrations as they
      were before. */
  method OpenThenClose(ctx: FloatingContext, hook: DismissHook, reference: ReferenceNode,
                       floatingAncestors: Option<seq<NodeId>>, visualViewport: Option<NodeId>)
    requires hook.ctx == ctx && hook.Valid() && hook.teardown == []
    modifies ctx, hook
    ensures hook.Valid() && hook.teardown == [] && hook.registered == old(hook.registered)
    ensures !ctx.open
  {
    ctx.SetOpen(true, Click);
    hook.RunEffect(reference, floatingAncestors, visualViewport);
    assert hook.registered == old(hook.registered) + multiset(hook.teardown) by {
      assert old(hook.registered) - multiset([]) == old(hook.registered);
    }
    ghost var added := hook.teardown;
    ctx.SetOpen(false, OutsidePress);
    hook.RunEffect(reference, floatingAncestors, visualViewport);
    assert hook.teardown == [];
    AddThenSubtract(old(hook.registered), multiset(added));
  }
}
