/** `useInteractions` and its `mergeProps`: the props objects of all
    interaction hooks, and the caller's own props, are merged into one props
    object per element.  Event handlers (`on*` keys) are chained rather than
    overwritten; every other key takes the last value assigned to it. */
module Interactions {
  import opened Common
  import opened Props

  /** Keys of an item's user props that describe its state and are never
      passed on to the DOM.  These three values are those of upstream
      Floating UI's constants. */
  const ACTIVE_KEY := "active"
  const SELECTED_KEY := "selected"
  /** Attribute that marks the floating element as focusable. */
  const FOCUSABLE_ATTRIBUTE := "data-floating-ui-focusable"

  /** Which element's props are being merged. */
  datatype ElementKey = ReferenceKey | FloatingKey | ItemKey

  function SlotOf(p: ElementProps, key: ElementKey): Slot {
    match key
    case ReferenceKey => p.reference
    case FloatingKey => p.floating
    case ItemKey => p.item
  }

  /** `key.indexOf('on') === 0`. */
  predicate IsHandlerKey(k: string) { |k| >= 2 && k[..2] == "on" }

  /** Item state keys, skipped when merging item props. */
  predicate IsReserved(k: string, isItem: bool) { isItem && (k == ACTIVE_KEY || k == SELECTED_KEY) }

  /** What one hook contributes for `key`: nothing for a missing hook or
      slot, the slot's object, or the getter's result called with the user's
      props (nothing when there are no user props). */
  function SourceOf(userProps: Option<Object>, value: Option<ElementProps>, key: ElementKey): Option<Object> {
    match value
    case None => None
    case Some(p) =>
      match SlotOf(p, key)
      case NoProps => None
      case Props(o) => Some(o)
      case Getter(g) => if userProps.Some? then g(userProps.value) else None
  }

  /** `propsList.map(...).concat(userProps)`: the hooks' contributions in list
      order, then the user's props. */
  function Sources(userProps: Option<Object>, propsList: seq<Option<ElementProps>>, key: ElementKey): (r: seq<Option<Object>>)
    ensures |r| == |propsList| + 1 && r[|propsList|] == userProps
    ensures forall i :: 0 <= i < |propsList| ==> r[i] == SourceOf(userProps, propsList[i], key)
  {
    seq(|propsList|, i requires 0 <= i < |propsList| => SourceOf(userProps, propsList[i], key)) + [userProps]
  }

  /** The accumulator of the reduce, and the handler lists of the `Map`. */
  datatype MergeState = MergeState(acc: Object, handlers: map<string, seq<Value>>)

  const EmptyState := MergeState([], map[])

  /** The handler list collected so far for `k` (empty when `k` is absent). */
  function HandlersOf(st: MergeState, k: string): seq<Value> {
    if k in st.handlers then st.handlers[k] else []
  }

  /** The body of the `forEach` on one entry. */
  function StepEntry(st: MergeState, isItem: bool, e: Entry): MergeState {
    var k := e.0;
    var v := e.1;
    if IsReserved(k, isItem) then st
    else if IsHandlerKey(k) then
      var fns := HandlersOf(st, k);
      if IsFunction(v) then MergeState(Set(st.acc, k, Merged(fns + [v])), st.handlers[k := fns + [v]])
      else MergeState(st.acc, st.handlers[k := fns])
    else MergeState(Set(st.acc, k, v), st.handlers)
  }

  function StepEntries(st: MergeState, isItem: bool, es: Object): MergeState {
    if es == [] then st
    else StepEntry(StepEntries(st, isItem, es[..|es| - 1]), isItem, es[|es| - 1])
  }

  /** The `reduce` over the sources; a missing source leaves the accumulator. */
  function StepSources(st: MergeState, isItem: bool, srcs: seq<Option<Object>>): MergeState {
    if srcs == [] then st
    else
      var prev := StepSources(st, isItem, srcs[..|srcs| - 1]);
      match srcs[|srcs| - 1]
      case None => prev
      case Some(o) => StepEntries(prev, isItem, o)
  }

  /** `elementKey === 'floating' && { tabIndex: -1, [FOCUSABLE_ATTRIBUTE]: '' }`. */
  function FloatingDefaults(key: ElementKey): Object {
    if key == FloatingKey then [("tabIndex", Num(-1)), (FOCUSABLE_ATTRIBUTE, Str(""))] else []
  }

  /** The user's props with the item state keys removed, for items. */
  function DomUserProps(userProps: Option<Object>, key: ElementKey): Option<Object> {
    if key == ItemKey && userProps.Some? then Some(Omit(userProps.value, {ACTIVE_KEY, SELECTED_KEY}))
    else userProps
  }

  /** The defaults spread with the user's DOM props: what the reduce's result
      is spread over. */
  function Base(userProps: Option<Object>, key: ElementKey): Object {
    SpreadOpt(FloatingDefaults(key), DomUserProps(userProps, key))
  }

  /** The value `mergeProps(userProps, propsList, key)` returns. */
  function MergeResult(userProps: Option<Object>, propsList: seq<Option<ElementProps>>, key: ElementKey): Object {
    Spread(Base(userProps, key), StepSources(EmptyState, key == ItemKey, Sources(userProps, propsList, key)).acc)
  }

  /** The entries of one source, folded into the accumulator and the
      handler lists. */
  method MergeEntries(acc0: Object, handlers0: map<string, seq<Value>>, isItem: bool, props: Object)
    returns (acc: Object, handlers: map<string, seq<Value>>)
    ensures MergeState(acc, handlers) == StepEntries(MergeState(acc0, handlers0), isItem, props)
  {
    acc, handlers := acc0, handlers0;
    var j := 0;
    while j < |props|
      invariant 0 <= j <= |props|
      invariant MergeState(acc, handlers) == StepEntries(MergeState(acc0, handlers0), isItem, props[..j])
    {
      assert props[..j + 1][..j] == props[..j];
      var key := props[j].0;
      var value := props[j].1;
      if IsReserved(key, isItem) {
      } else if IsHandlerKey(key) {
        if key !in handlers {
          handlers := handlers[key := []];
        }
        if IsFunction(value) {
          handlers := handlers[key := handlers[key] + [value]];
          acc := Set(acc, key, Merged(handlers[key]));
        }
      } else {
        acc := Set(acc, key, value);
      }
      j := j + 1;
    }
    assert props[..|props|] == props;
  }

  /** `mergeProps`. */
  method MergeProps(userProps: Option<Object>, propsList: seq<Option<ElementProps>>, elementKey: ElementKey)
    returns (out: Object)
    ensures out == MergeResult(userProps, propsList, elementKey)
  {
    var isItem := elementKey == ItemKey;
    var domUserProps := userProps;
    if isItem && userProps.Some? {
      domUserProps := Some(Omit(userProps.value, {ACTIVE_KEY, SELECTED_KEY}));
    }
    var sources := Sources(userProps, propsList, elementKey);
    var acc: Object := [];
    var handlers: map<string, seq<Value>> := map[];
    var i := 0;
    while i < |sources|
      invariant 0 <= i <= |sources|
      invariant MergeState(acc, handlers) == StepSources(EmptyState, isItem, sources[..i])
    {
      assert sources[..i + 1][..i] == sources[..i];
      match sources[i] {
      case None =>
      case Some(props) =>
        acc, handlers := MergeEntries(acc, handlers, isItem, props);
      }
      i := i + 1;
    }
    assert sources[..|sources|] == sources;
    out := Spread(SpreadOpt(FloatingDefaults(elementKey), domUserProps), acc);
  }

  /** The function values assigned to `k` in `o`, in entry order. */
  function FnsIn(o: Object, k: string): seq<Value> {
    if o == [] then []
    else FnsIn(o[..|o| - 1], k) + (if o[|o| - 1].0 == k && IsFunction(o[|o| - 1].1) then [o[|o| - 1].1] else [])
  }

  /** The function values assigned to `k` across all sources, in order. */
  function Collected(srcs: seq<Option<Object>>, k: string): seq<Value> {
    if srcs == [] then []
    else
      var here := match srcs[|srcs| - 1] case None => [] case Some(o) => FnsIn(o, k);
      Collected(srcs[..|srcs| - 1], k) + here
  }

  /** The last value assigned to `k` across all sources. */
  function LastOf(srcs: seq<Option<Object>>, k: string): Option<Value> {
    if srcs == [] then None
    else
      var here := match srcs[|srcs| - 1] case None => None case Some(o) => Last(o, k);
      if here.Some? then here else LastOf(srcs[..|srcs| - 1], k)
  }

  lemma {:induction false} FnsInAreFunctions(o: Object, k: string)
    ensures forall i :: 0 <= i < |FnsIn(o, k)| ==> IsFunction(FnsIn(o, k)[i])
  {
    if o != [] {
      FnsInAreFunctions(o[..|o| - 1], k);
    }
  }

  lemma {:induction false} CollectedAreFunctions(srcs: seq<Option<Object>>, k: string)
    ensures forall i :: 0 <= i < |Collected(srcs, k)| ==> IsFunction(Collected(srcs, k)[i])
  {
    if srcs != [] {
      CollectedAreFunctions(srcs[..|srcs| - 1], k);
      match srcs[|srcs| - 1]
      case None =>
      case Some(o) => FnsInAreFunctions(o, k);
    }
  }

  /** Handler keys within one source: each function is appended to the list,
      and the key then holds the chain of the whole list. */
  lemma {:induction false} EntriesHandler(st: MergeState, isItem: bool, es: Object, k: string)
    requires IsHandlerKey(k) && !IsReserved(k, isItem)
    ensures HandlersOf(StepEntries(st, isItem, es), k) == HandlersOf(st, k) + FnsIn(es, k)
    ensures Get(StepEntries(st, isItem, es).acc, k) ==
      if FnsIn(es, k) == [] then Get(st.acc, k) else Some(Merged(HandlersOf(st, k) + FnsIn(es, k)))
  {
    if es != [] {
      var init := es[..|es| - 1];
      var e := es[|es| - 1];
      EntriesHandler(st, isItem, init, k);
      var prev := StepEntries(st, isItem, init);
      GetSet(prev.acc, e.0, if IsHandlerKey(e.0) then Merged(HandlersOf(prev, e.0) + [e.1]) else e.1, k);
      if e.0 == k && IsFunction(e.1) {
        assert HandlersOf(st, k) + FnsIn(es, k) == HandlersOf(st, k) + FnsIn(init, k) + [e.1];
      }
    }
  }

  /** Every other key within one source: the last assignment wins. */
  lemma {:induction false} EntriesAttribute(st: MergeState, isItem: bool, es: Object, k: string)
    requires !IsHandlerKey(k) && !IsReserved(k, isItem)
    ensures Get(StepEntries(st, isItem, es).acc, k) == if Last(es, k).Some? then Last(es, k) else Get(st.acc, k)
  {
    if es != [] {
      var init := es[..|es| - 1];
      var e := es[|es| - 1];
      EntriesAttribute(st, isItem, init, k);
      var prev := StepEntries(st, isItem, init);
      GetSet(prev.acc, e.0, if IsHandlerKey(e.0) then Merged(HandlersOf(prev, e.0) + [e.1]) else e.1, k);
    }
  }

  /** Item state keys are never assigned. */
  lemma {:induction false} EntriesReserved(st: MergeState, isItem: bool, es: Object, k: string)
    requires IsReserved(k, isItem)
    ensures Get(StepEntries(st, isItem, es).acc, k) == Get(st.acc, k)
  {
    if es != [] {
      var init := es[..|es| - 1];
      var e := es[|es| - 1];
      EntriesReserved(st, isItem, init, k);
      var prev := StepEntries(st, isItem, init);
      GetSet(prev.acc, e.0, if IsHandlerKey(e.0) then Merged(HandlersOf(prev, e.0) + [e.1]) else e.1, k);
    }
  }

  lemma {:induction false} SourcesHandler(st: MergeState, isItem: bool, srcs: seq<Option<Object>>, k: string)
    requires IsHandlerKey(k) && !IsReserved(k, isItem)
    ensures HandlersOf(StepSources(st, isItem, srcs), k) == HandlersOf(st, k) + Collected(srcs, k)
    ensures Get(StepSources(st, isItem, srcs).acc, k) ==
      if Collected(srcs, k) == [] then Get(st.acc, k) else Some(Merged(HandlersOf(st, k) + Collected(srcs, k)))
  {
    if srcs != [] {
      var init := srcs[..|srcs| - 1];
      SourcesHandler(st, isItem, init, k);
      match srcs[|srcs| - 1]
      case None =>
      case Some(o) =>
        EntriesHandler(StepSources(st, isItem, init), isItem, o, k);
        var before, fns := Collected(init, k), FnsIn(o, k);
        assert Collected(srcs, k) == before + fns;
        AppendAssoc(HandlersOf(st, k), before, fns);
        if fns == [] {
          assert before + fns == before;
        }
    }
  }

  lemma {:induction false} SourcesAttribute(st: MergeState, isItem: bool, srcs: seq<Option<Object>>, k: string)
    requires !IsHandlerKey(k) && !IsReserved(k, isItem)
    ensures Get(StepSources(st, isItem, srcs).acc, k) == if LastOf(srcs, k).Some? then LastOf(srcs, k) else Get(st.acc, k)
  {
    if srcs != [] {
      var init := srcs[..|srcs| - 1];
      SourcesAttribute(st, isItem, init, k);
      match srcs[|srcs| - 1]
      case None =>
      case Some(o) => EntriesAttribute(StepSources(st, isItem, init), isItem, o, k);
    }
  }

  lemma {:induction false} SourcesReserved(st: MergeState, isItem: bool, srcs: seq<Option<Object>>, k: string)
    requires IsReserved(k, isItem)
    ensures Get(StepSources(st, isItem, srcs).acc, k) == Get(st.acc, k)
  {
    if srcs != [] {
      var init := srcs[..|srcs| - 1];
      SourcesReserved(st, isItem, init, k);
      match srcs[|srcs| - 1]
      case None =>
      case Some(o) => EntriesReserved(StepSources(st, isItem, init), isItem, o, k);
    }
  }

  /** Handlers are chained, never overwritten: an `on*` key holds one handler
      that calls every function any source assigned to it, in source order
      (hooks in list order, then the user's props); only when no source
      assigned a function does the user's raw value show through. */
  lemma HandlersChain(userProps: Option<Object>, propsList: seq<Option<ElementProps>>, key: ElementKey, k: string)
    requires IsHandlerKey(k) && !IsReserved(k, key == ItemKey)
    ensures var fns := Collected(Sources(userProps, propsList, key), k);
      (forall i :: 0 <= i < |fns| ==> IsFunction(fns[i])) &&
      Get(MergeResult(userProps, propsList, key), k) ==
        if fns == [] then Get(Base(userProps, key), k) else Some(Merged(fns))
  {
    var srcs := Sources(userProps, propsList, key);
    var st := StepSources(EmptyState, key == ItemKey, srcs);
    SourcesHandler(EmptyState, key == ItemKey, srcs, k);
    assert HandlersOf(EmptyState, k) == [];
    assert HandlersOf(EmptyState, k) + Collected(srcs, k) == Collected(srcs, k);
    CollectedAreFunctions(srcs, k);
    SpreadGet(Base(userProps, key), st.acc, k);
    SourcesUnique(EmptyState, key == ItemKey, srcs);
    LastIsGet(st.acc, k);
  }

  /** A non-function value under an `on*` key is never copied from a hook's
      props: if one is in the result, it came from the user's props and no
      source assigned a function to that key. */
  lemma NonFunctionHandlerFromUser(userProps: Option<Object>, propsList: seq<Option<ElementProps>>, key: ElementKey, k: string)
    requires IsHandlerKey(k) && !IsReserved(k, key == ItemKey)
    requires Get(MergeResult(userProps, propsList, key), k).Some?
    requires !IsFunction(Get(MergeResult(userProps, propsList, key), k).value)
    ensures Collected(Sources(userProps, propsList, key), k) == []
    ensures DomUserProps(userProps, key).Some?
    ensures Last(DomUserProps(userProps, key).value, k) == Get(MergeResult(userProps, propsList, key), k)
  {
    HandlersChain(userProps, propsList, key, k);
    SpreadOptGet(FloatingDefaults(key), DomUserProps(userProps, key), k);
    DefaultsAreNotHandlers(key, k);
  }

  /** The floating defaults assign no `on*` key. */
  lemma DefaultsAreNotHandlers(key: ElementKey, k: string)
    requires IsHandlerKey(k)
    ensures Get(FloatingDefaults(key), k) == None
  {
    assert "tabIndex"[..2] == "ta" != "on";
    assert FOCUSABLE_ATTRIBUTE[..2] == "da" != "on";
    assert k != "tabIndex" && k != FOCUSABLE_ATTRIBUTE;
    var d := FloatingDefaults(key);
    if key == FloatingKey {
      assert d[0].0 != k && d[1].0 != k;
      assert d[1..][1..] == [];
      assert Get(d[1..][1..], k) == None;
      assert Get(d[1..], k) == None;
    }
  }

  /** Every other key takes the value of its last assignment: the user's props
      override the hooks, later hooks override earlier ones, and the floating
      defaults survive only where nothing assigns them. */
  lemma AttributesLastWins(userProps: Option<Object>, propsList: seq<Option<ElementProps>>, key: ElementKey, k: string)
    requires !IsHandlerKey(k) && !IsReserved(k, key == ItemKey)
    ensures var last := LastOf(Sources(userProps, propsList, key), k);
      Get(MergeResult(userProps, propsList, key), k) == if last.Some? then last else Get(Base(userProps, key), k)
  {
    var srcs := Sources(userProps, propsList, key);
    var st := StepSources(EmptyState, key == ItemKey, srcs);
    SourcesAttribute(EmptyState, key == ItemKey, srcs, k);
    SpreadGet(Base(userProps, key), st.acc, k);
    SourcesUnique(EmptyState, key == ItemKey, srcs);
    LastIsGet(st.acc, k);
  }

  /** The user's own assignment of an ordinary key always wins. */
  lemma UserAttributeWins(userProps: Option<Object>, propsList: seq<Option<ElementProps>>, key: ElementKey, k: string)
    requires !IsHandlerKey(k) && !IsReserved(k, key == ItemKey)
    requires userProps.Some? && Last(userProps.value, k).Some?
    ensures Get(MergeResult(userProps, propsList, key), k) == Last(userProps.value, k)
  {
    AttributesLastWins(userProps, propsList, key, k);
    var srcs := Sources(userProps, propsList, key);
    assert srcs[|srcs| - 1] == userProps;
  }

  /** The floating element is focusable by script: `tabIndex` is -1 and the
      focusable marker is set, unless some source assigns them. */
  lemma FloatingDefaultsKept(userProps: Option<Object>, propsList: seq<Option<ElementProps>>)
    requires LastOf(Sources(userProps, propsList, FloatingKey), "tabIndex").None?
    requires LastOf(Sources(userProps, propsList, FloatingKey), FOCUSABLE_ATTRIBUTE).None?
    ensures Get(MergeResult(userProps, propsList, FloatingKey), "tabIndex") == Some(Num(-1))
    ensures Get(MergeResult(userProps, propsList, FloatingKey), FOCUSABLE_ATTRIBUTE) == Some(Str(""))
  {
    var srcs := Sources(userProps, propsList, FloatingKey);
    assert "tabIndex"[..2] == "ta";
    assert FOCUSABLE_ATTRIBUTE[..2] == "da";
    AttributesLastWins(userProps, propsList, FloatingKey, "tabIndex");
    AttributesLastWins(userProps, propsList, FloatingKey, FOCUSABLE_ATTRIBUTE);
    assert srcs[|srcs| - 1] == userProps;
    LastOfNoneLast(srcs, "tabIndex");
    LastOfNoneLast(srcs, FOCUSABLE_ATTRIBUTE);
    SpreadOptGet(FloatingDefaults(FloatingKey), userProps, "tabIndex");
    SpreadOptGet(FloatingDefaults(FloatingKey), userProps, FOCUSABLE_ATTRIBUTE);
  }

  /** Item state keys never reach an item's props. */
  lemma ItemStateKeysDropped(userProps: Option<Object>, propsList: seq<Option<ElementProps>>, k: string)
    requires k == ACTIVE_KEY || k == SELECTED_KEY
    ensures Get(MergeResult(userProps, propsList, ItemKey), k) == None
  {
    var srcs := Sources(userProps, propsList, ItemKey);
    var st := StepSources(EmptyState, true, srcs);
    SourcesReserved(EmptyState, true, srcs, k);
    SpreadGet(Base(userProps, ItemKey), st.acc, k);
    SourcesUnique(EmptyState, true, srcs);
    LastIsGet(st.acc, k);
    SpreadOptGet(FloatingDefaults(ItemKey), DomUserProps(userProps, ItemKey), k);
    if userProps.Some? {
      OmitLast(userProps.value, {ACTIVE_KEY, SELECTED_KEY}, k);
    }
  }

  lemma {:induction false} LastOfNoneLast(srcs: seq<Option<Object>>, k: string)
    requires srcs != [] && LastOf(srcs, k).None?
    ensures srcs[|srcs| - 1].None? || Last(srcs[|srcs| - 1].value, k).None?
  {
  }

  /** The accumulator is a genuine object: it never repeats a key. */
  lemma {:induction false} EntriesUnique(st: MergeState, isItem: bool, es: Object)
    requires UniqueKeys(st.acc)
    ensures UniqueKeys(StepEntries(st, isItem, es).acc)
  {
    if es != [] {
      var init := es[..|es| - 1];
      var e := es[|es| - 1];
      EntriesUnique(st, isItem, init);
      var prev := StepEntries(st, isItem, init);
      SetUnique(prev.acc, e.0, if IsHandlerKey(e.0) then Merged(HandlersOf(prev, e.0) + [e.1]) else e.1);
    }
  }

  lemma {:induction false} SourcesUnique(st: MergeState, isItem: bool, srcs: seq<Option<Object>>)
    requires UniqueKeys(st.acc)
    ensures UniqueKeys(StepSources(st, isItem, srcs).acc)
  {
    if srcs != [] {
      SourcesUnique(st, isItem, srcs[..|srcs| - 1]);
      match srcs[|srcs| - 1]
      case None =>
      case Some(o) => EntriesUnique(StepSources(st, isItem, srcs[..|srcs| - 1]), isItem, o);
    }
  }

  /** The first defined result of the calls, in call order. */
  function FirstDefined<R>(results: seq<Option<R>>): Option<R> {
    if results == [] then None
    else if results[0].Some? then results[0]
    else FirstDefined(results[1..])
  }

  /** Calling a chained handler: `fns.map(fn => fn(...args)).find(val => val
      !== undefined)`.  `call(f, args)` is what calling function value `f`
      returns, `None` standing for `undefined`.  Every function is called,
      once and in order, even after one has returned a value; the result is
      the first defined return value. */
  method InvokeMerged<A, R>(fns: seq<Value>, args: A, call: (Value, A) -> Option<R>)
    returns (result: Option<R>, calls: seq<Value>)
    ensures calls == fns
    ensures result.None? <==> forall i :: 0 <= i < |fns| ==> call(fns[i], args).None?
    ensures result.Some? ==>
      exists i :: 0 <= i < |fns| && result == call(fns[i], args) &&
        (forall j :: 0 <= j < i ==> call(fns[j], args).None?)
  {
    var results: seq<Option<R>> := [];
    calls := [];
    var i := 0;
    while i < |fns|
      invariant 0 <= i <= |fns|
      invariant calls == fns[..i]
      invariant |results| == i
      invariant forall j :: 0 <= j < i ==> results[j] == call(fns[j], args)
    {
      var r := call(fns[i], args);
      results := results + [r];
      calls := calls + [fns[i]];
      i := i + 1;
    }
    assert fns[..|fns|] == fns;
    var k := 0;
    while k < |results| && results[k].None?
      invariant 0 <= k <= |results|
      invariant forall j :: 0 <= j < k ==> results[j].None?
    {
      k := k + 1;
    }
    result := if k < |results| then results[k] else None;
  }

  /** `getReferenceProps`. */
  method GetReferenceProps(propsList: seq<Option<ElementProps>>, userProps: Option<Object>) returns (out: Object)
    ensures out == MergeResult(userProps, propsList, ReferenceKey)
  {
    out := MergeProps(userProps, propsList, ReferenceKey);
  }

  /** `getFloatingProps`. */
  method GetFloatingProps(propsList: seq<Option<ElementProps>>, userProps: Option<Object>) returns (out: Object)
    ensures out == MergeResult(userProps, propsList, FloatingKey)
  {
    out := MergeProps(userProps, propsList, FloatingKey);
  }

  /** `getItemProps`. */
  method GetItemProps(propsList: seq<Option<ElementProps>>, userProps: Option<Object>) returns (out: Object)
    ensures out == MergeResult(userProps, propsList, ItemKey)
  {
    out := MergeProps(userProps, propsList, ItemKey);
  }
}
