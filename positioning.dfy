/** `useFloating` of the DOM package: the positioning data of the floating
    element, written only when a computed result differs from it, and the
    inline styles derived from it.  `computePosition` is external: a
    request is counted, and its result arrives through `Resolve`. */
module Positioning {
  import opened Common
  import opened Props

  /** The `open` option: absent, a plain boolean, or an observable holding a
      boolean. */
  datatype OpenOption = OpenUnset | OpenPlain(b: bool) | OpenObservable(v: bool)

  /** What the option says, `None` when it is absent. */
  function OpenValue(open: OpenOption): Option<bool> {
    match open
    case OpenUnset => None
    case OpenPlain(b) => Some(b)
    case OpenObservable(v) => Some(v)
  }

  /** The value `useObservable(open)` holds: an observable is used as it is;
      any other value goes through `value || null`, so a plain `false`
      becomes `null`. */
  function OpenRefValue(open: OpenOption): Option<bool> {
    match open
    case OpenUnset => None
    case OpenPlain(b) => if b then Some(true) else None
    case OpenObservable(v) => Some(v)
  }

  /** `isPositioned: $$(openRef) !== false`, as written. */
  predicate IsPositionedAsWritten(open: OpenOption) {
    OpenRefValue(open) != Some(false)
  }

  /** `isPositioned` as the comment above it intends: false exactly when the
      `open` option is specified as `false`. */
  predicate IsPositioned(open: OpenOption) {
    OpenValue(open) != Some(false)
  }

  /** The two differ only for a plain `open: false`, which `useObservable`
      collapses to `null`. */
  lemma IsPositionedCases(open: OpenOption)
    ensures IsPositioned(open) <==> !(open == OpenPlain(false) || open == OpenObservable(false))
    ensures open.OpenUnset? ==> IsPositioned(open)
    ensures IsPositioned(open) != IsPositionedAsWritten(open) <==> open == OpenPlain(false)
  {
  }

  /** A `computePosition` result. */
  datatype PositionResult = PositionResult(x: int, y: int, placement: string, strategy: string,
                                           middlewareData: Object)

  /** The `data` cell. */
  datatype FloatingData = FloatingData(x: int, y: int, strategy: string, placement: string,
                                       middlewareData: Object, isPositioned: bool)

  /** `{...result, isPositioned}`. */
  function FullData(result: PositionResult, positioned: bool): (r: FloatingData)
    ensures r.x == result.x && r.y == result.y && r.placement == result.placement
    ensures r.strategy == result.strategy && r.middlewareData == result.middlewareData
    ensures r.isPositioned == positioned
  {
    FloatingData(result.x, result.y, result.strategy, result.placement, result.middlewareData, positioned)
  }

  /** The write gate: only while mounted and only for data that differs
      (the abstract `deepEqual` is equality of the records). */
  predicate Writes(current: FloatingData, full: FloatingData, mounted: bool) {
    mounted && current != full
  }

  /** After the gate the data equals the result when mounted, and is kept
      otherwise. */
  function Gate(current: FloatingData, full: FloatingData, mounted: bool): (r: FloatingData)
    ensures mounted ==> r == full
    ensures !mounted ==> r == current
    ensures !Writes(current, full, mounted) ==> r == current
  {
    if Writes(current, full, mounted) then full else current
  }

  /** Applying the same result a second time never writes. */
  lemma SameResultWritesOnce(current: FloatingData, full: FloatingData, mounted: bool)
    ensures !Writes(Gate(current, full, mounted), full, mounted)
    ensures Gate(Gate(current, full, mounted), full, mounted) == Gate(current, full, mounted)
  {
  }

  /** The data after a result resolves, with the intended `isPositioned`. */
  function Resolved(current: FloatingData, result: PositionResult, open: OpenOption, mounted: bool): FloatingData {
    Gate(current, FullData(result, IsPositioned(open)), mounted)
  }

  /** The same with `isPositioned` as written. */
  function ResolvedAsWritten(current: FloatingData, result: PositionResult, open: OpenOption,
                             mounted: bool): FloatingData
  {
    Gate(current, FullData(result, IsPositionedAsWritten(open)), mounted)
  }

  /** The open effect: for a plain `open: false` it clears `isPositioned`. */
  function AfterOpenEffect(open: OpenOption, d: FloatingData): (r: FloatingData)
    ensures !r.isPositioned || open != OpenPlain(false)
    ensures r.(isPositioned := d.isPositioned) == d
    ensures !d.isPositioned ==> r == d
  {
    if open == OpenPlain(false) && d.isPositioned then d.(isPositioned := false) else d
  }

  /** With the intended flag a result written while `open` is specified as
      `false` is never marked positioned, the open effect has nothing left
      to do, and it takes a single write. */
  lemma ResolvedNeverPositionedWhenClosed(current: FloatingData, result: PositionResult, open: OpenOption)
    ensures var d := Resolved(current, result, open, true);
      && d.x == result.x && d.y == result.y
      && (d.isPositioned <==> OpenValue(open) != Some(false))
      && AfterOpenEffect(open, d) == d
      && !Writes(d, FullData(result, IsPositioned(open)), true)
  {
  }

  /** As written, a result computed for a plain `open: false` is first
      stored with `isPositioned: true`; the open effect then rewrites it to
      `false`, and the next identical result differs again from the stored
      data, so the `deepEqual` gate never settles: every recomputation
      while closed writes twice. */
  lemma TransientPositionedAsWritten(current: FloatingData, result: PositionResult)
    ensures var d := ResolvedAsWritten(current, result, OpenPlain(false), true);
      && d.isPositioned
      && AfterOpenEffect(OpenPlain(false), d) == Resolved(current, result, OpenPlain(false), true)
      && Writes(AfterOpenEffect(OpenPlain(false), d), FullData(result, IsPositionedAsWritten(OpenPlain(false))), true)
  {
  }

  class PositionBinding {
    const placement: string
    const strategy: string
    const transform: bool
    const open: OpenOption
    const hasWhileElementsMounted: bool

    var data: FloatingData
    var reference: Option<NodeId>
    var floating: Option<NodeId>
    /** The `isMounted` cell; nothing ever sets it to false. */
    var isMounted: bool
    /** `computePosition` calls whose promise has not resolved yet. */
    var pendingComputations: nat
    /** Calls of `whileElementsMounted`, and writes of the data cell. */
    var whileMountedCalls: nat
    var writes: nat

    /** The resolved options; data at the origin, not positioned, with no
        middleware data. */
    constructor (placement: string, strategy: string, transform: bool, open: OpenOption,
                 hasWhileElementsMounted: bool, reference: Option<NodeId>, floating: Option<NodeId>)
      ensures this.placement == placement && this.strategy == strategy && this.transform == transform
      ensures this.open == open && this.hasWhileElementsMounted == hasWhileElementsMounted
      ensures this.reference == reference && this.floating == floating
      ensures data == FloatingData(0, 0, strategy, placement, [], false)
      ensures isMounted && pendingComputations == 0 && whileMountedCalls == 0 && writes == 0
    {
      this.placement := placement;
      this.strategy := strategy;
      this.transform := transform;
      this.open := open;
      this.hasWhileElementsMounted := hasWhileElementsMounted;
      this.reference := reference;
      this.floating := floating;
      data := FloatingData(0, 0, strategy, placement, [], false);
      isMounted := true;
      pendingComputations := 0;
      whileMountedCalls := 0;
      writes := 0;
    }

    /** Setting the `reference` and `floating` observables. */
    method SetElements(reference: Option<NodeId>, floating: Option<NodeId>)
      modifies this
      ensures this.reference == reference && this.floating == floating
      ensures data == old(data) && writes == old(writes) && isMounted == old(isMounted)
      ensures pendingComputations == old(pendingComputations) && whileMountedCalls == old(whileMountedCalls)
    {
      this.reference := reference;
      this.floating := floating;
    }

    /** `update`: nothing without both elements; otherwise a position is
        requested. */
    method Update()
      modifies this
      ensures pendingComputations ==
        old(pendingComputations) + (if reference.Some? && floating.Some? then 1 else 0)
      ensures data == old(data) && writes == old(writes) && whileMountedCalls == old(whileMountedCalls)
      ensures reference == old(reference) && floating == old(floating) && isMounted == old(isMounted)
    {
      if reference.None? || floating.None? {
        return;
      }
      pendingComputations := pendingComputations + 1;
    }

    /** A requested position arrives; it passes the write gate.  The flag
        is `$$(openRef) !== false` as written, so a plain `open: false`
        stores `isPositioned: true`. */
    method Resolve(result: PositionResult)
      requires pendingComputations > 0
      modifies this
      ensures data == ResolvedAsWritten(old(data), result, open, isMounted)
      ensures data.isPositioned == (if isMounted then IsPositionedAsWritten(open) else old(data).isPositioned)
      ensures writes == old(writes) +
        (if Writes(old(data), FullData(result, IsPositionedAsWritten(open)), isMounted) then 1 else 0)
      ensures pendingComputations == old(pendingComputations) - 1
      ensures whileMountedCalls == old(whileMountedCalls)
      ensures reference == old(reference) && floating == old(floating) && isMounted == old(isMounted)
    {
      pendingComputations := pendingComputations - 1;
      var fullData := FullData(result, IsPositionedAsWritten(open));
      if isMounted && data != fullData {
        data := fullData;
        writes := writes + 1;
      }
    }

    /** The corrected resolution: the flag is false exactly when `open` is
        specified as `false`. */
    method ResolveIntended(result: PositionResult)
      requires pendingComputations > 0
      modifies this
      ensures data == Resolved(old(data), result, open, isMounted)
      ensures data.isPositioned == (if isMounted then IsPositioned(open) else old(data).isPositioned)
      ensures writes == old(writes) +
        (if Writes(old(data), FullData(result, IsPositioned(open)), isMounted) then 1 else 0)
      ensures pendingComputations == old(pendingComputations) - 1
      ensures whileMountedCalls == old(whileMountedCalls)
      ensures reference == old(reference) && floating == old(floating) && isMounted == old(isMounted)
    {
      pendingComputations := pendingComputations - 1;
      var fullData := FullData(result, IsPositioned(open));
      if isMounted && data != fullData {
        data := fullData;
        writes := writes + 1;
      }
    }

    /** The open effect: a plain `open: false` clears `isPositioned` and
        keeps every other field. */
    method OpenEffect()
      modifies this
      ensures data == AfterOpenEffect(open, old(data))
      ensures writes == old(writes) + (if open == OpenPlain(false) && old(data).isPositioned then 1 else 0)
      ensures pendingComputations == old(pendingComputations) && whileMountedCalls == old(whileMountedCalls)
      ensures reference == old(reference) && floating == old(floating) && isMounted == old(isMounted)
    {
      if open == OpenPlain(false) && data.isPositioned {
        data := data.(isPositioned := false);
        writes := writes + 1;
      }
    }

    /** The positioning effect: with both elements, `whileElementsMounted`
        (when given) is called in place of `update`. */
    method PositionEffect()
      modifies this
      ensures var both := reference.Some? && floating.Some?;
        && whileMountedCalls == old(whileMountedCalls) + (if both && hasWhileElementsMounted then 1 else 0)
        && pendingComputations == old(pendingComputations) + (if both && !hasWhileElementsMounted then 1 else 0)
      ensures data == old(data) && writes == old(writes)
      ensures reference == old(reference) && floating == old(floating) && isMounted == old(isMounted)
    {
      if reference.Some? && floating.Some? {
        if hasWhileElementsMounted {
          whileMountedCalls := whileMountedCalls + 1;
          return;
        }
        Update();
      }
    }

    /** `floatingStyles`, with the device-pixel rounding and the pixel ratio
        test as parameters. */
    function FloatingStyles(round: int -> int, highDensity: bool): Object
      reads this
    {
      StylesOf(strategy, floating.Some?, transform, round(data.x), round(data.y), highDensity)
    }
  }

  /** `translate(${x}px, ${y}px)`. */
  function Translate(x: int, y: int): string {
    "translate(" + IntToString(x) + "px, " + IntToString(y) + "px)"
  }

  /** The style shape: at the origin without a floating element; shifted by
      a transform (left and top stay 0) or placed by left and top. */
  function StylesOf(strategy: string, floatingPresent: bool, transform: bool, x: int, y: int,
                    highDensity: bool): Object
  {
    var initial := [("position", Str(strategy)), ("left", Num(0)), ("top", Num(0))];
    if !floatingPresent then initial
    else if transform then
      initial + [("transform", Str(Translate(x, y)))] + When(highDensity, [("willChange", Str("transform"))])
    else [("position", Str(strategy)), ("left", Num(x)), ("top", Num(y))]
  }

  lemma {:induction false} StylesGet(strategy: string, floatingPresent: bool, transform: bool, x: int, y: int,
                                     highDensity: bool, k: string)
    ensures var r := StylesOf(strategy, floatingPresent, transform, x, y, highDensity);
      Get(r, k) ==
        if k == "position" then Some(Str(strategy))
        else if k == "left" then Some(Num(if floatingPresent && !transform then x else 0))
        else if k == "top" then Some(Num(if floatingPresent && !transform then y else 0))
        else if k == "transform" && floatingPresent && transform then Some(Str(Translate(x, y)))
        else if k == "willChange" && floatingPresent && transform && highDensity then Some(Str("transform"))
        else None
  {
    var e1: Object := [("position", Str(strategy))];
    var lx := if floatingPresent && !transform then x else 0;
    var ly := if floatingPresent && !transform then y else 0;
    var e2: Object := [("left", Num(lx))];
    var e3: Object := [("top", Num(ly))];
    var t := When(floatingPresent && transform, [("transform", Str(Translate(x, y)))]);
    var w := When(floatingPresent && transform && highDensity, [("willChange", Str("transform"))]);
    assert StylesOf(strategy, floatingPresent, transform, x, y, highDensity) == e1 + e2 + e3 + t + w;
    GetAppend(e1 + e2 + e3 + t, w, k);
    GetAppend(e1 + e2 + e3, t, k);
    GetAppend(e1 + e2, e3, k);
    GetAppend(e1, e2, k);
    GetSingle("position", Str(strategy), k);
    GetSingle("left", Num(lx), k);
    GetSingle("top", Num(ly), k);
    GetWhen(floatingPresent && transform, "transform", Str(Translate(x, y)), k);
    GetWhen(floatingPresent && transform && highDensity, "willChange", Str("transform"), k);
  }

  /** Positions written by the styles read back as the rounded coordinates. */
  lemma TranslateRoundTrip(x: int, y: int)
    ensures var s := Translate(x, y);
      var xs := IntToString(x);
      var ys := IntToString(y);
      && s[10..10 + |xs|] == xs
      && ParseInt(s[10..10 + |xs|]) == x
      && s[10 + |xs| + 4..10 + |xs| + 4 + |ys|] == ys
      && ParseInt(s[10 + |xs| + 4..10 + |xs| + 4 + |ys|]) == y
  {
    var xs := IntToString(x);
    var ys := IntToString(y);
    assert Translate(x, y) == "translate(" + xs + "px, " + ys + "px)";
    FieldSlices("translate(", xs, "px, ", ys, "px)");
    IntToStringRoundTrip(x);
    IntToStringRoundTrip(y);
  }

  /** The two fields of `a + xs + b + ys + c` sit at their offsets. */
  lemma FieldSlices(a: string, xs: string, b: string, ys: string, c: string)
    ensures var s := a + xs + b + ys + c;
      && s[|a|..|a| + |xs|] == xs
      && s[|a| + |xs| + |b|..|a| + |xs| + |b| + |ys|] == ys
  {
  }

  /** `useFloating(options)`: destructuring defaults apply to options left
      `undefined`; the element options go through `useObservable`, so an
      absent element is `null`. */
  method UseFloating(placement: Option<string>, strategy: Option<string>, transform: Option<bool>,
                     open: OpenOption, whileElementsMounted: bool,
                     reference: Option<NodeId>, floating: Option<NodeId>)
    returns (b: PositionBinding)
    ensures fresh(b)
    ensures b.placement == (if placement.Some? then placement.value else "bottom")
    ensures b.strategy == (if strategy.Some? then strategy.value else "absolute")
    ensures b.transform == (transform.None? || transform.value)
    ensures b.open == open && b.hasWhileElementsMounted == whileElementsMounted
    ensures b.reference == reference && b.floating == floating
    ensures b.data == FloatingData(0, 0, b.strategy, b.placement, [], false)
    ensures b.isMounted && b.pendingComputations == 0 && b.whileMountedCalls == 0 && b.writes == 0
  {
    var p := if placement.Some? then placement.value else "bottom";
    var s := if strategy.Some? then strategy.value else "absolute";
    var t := if transform.Some? then transform.value else true;
    b := new PositionBinding(p, s, t, open, whileElementsMounted, reference, floating);
  }

  /** Once a computed result is written, the styles follow it; a result
      computed for a plain `open: false` is not marked positioned. */
  method ResolveAndStyle(b: PositionBinding, result: PositionResult, round: int -> int, highDensity: bool)
    returns (styles: Object)
    requires b.pendingComputations > 0 && b.isMounted && b.floating.Some? && !b.transform
    modifies b
    ensures b.data.x == result.x && b.data.y == result.y
    ensures b.data.isPositioned == (b.open != OpenObservable(false))
    ensures Get(styles, "left") == Some(Num(round(result.x))) && Get(styles, "top") == Some(Num(round(result.y)))
  {
    b.Resolve(result);
    styles := b.FloatingStyles(round, highDensity);
    StylesGet(b.strategy, true, false, round(b.data.x), round(b.data.y), highDensity, "left");
    StylesGet(b.strategy, true, false, round(b.data.x), round(b.data.y), highDensity, "top");
  }

  /** As written, with a plain `open: false`: once the data has settled on
      a result (not positioned), recomputing the same result and running
      the open effect writes the data twice and ends where it started. */
  method ClosedRecomputeAsWritten(b: PositionBinding, result: PositionResult)
    requires b.open == OpenPlain(false) && b.isMounted && b.pendingComputations > 0
    requires b.data == FullData(result, false)
    modifies b
    ensures b.data == old(b.data)
    ensures b.writes == old(b.writes) + 2
  {
    b.Resolve(result);
    b.OpenEffect();
  }

  /** Corrected, on the same state: the same recomputation writes nothing. */
  method ClosedRecomputeIntended(b: PositionBinding, result: PositionResult)
    requires b.open == OpenPlain(false) && b.isMounted && b.pendingComputations > 0
    requires b.data == FullData(result, false)
    modifies b
    ensures b.data == old(b.data)
    ensures b.writes == old(b.writes)
  {
    b.ResolveIntended(result);
    b.OpenEffect();
  }
}
