/** `useMergeRefs`: one callback ref that writes the element into every ref
    of a list, or `null` when the list holds no ref at all. */
module MergeRefs {
  import opened Common

  /** An observable cell holding an element or `null`. */
  class Cell {
    var value: Option<NodeId>

    constructor (value: Option<NodeId>)
      ensures this.value == value
    {
      this.value := value;
    }
  }

  /** An entry of the list: `undefined`, `null`, a plain element (truthy but
      neither observable nor function), an observable, or a callback. */
  datatype Ref = UndefinedRef | NullRef | PlainRef(instance: NodeId) | ObservableRef(cell: Cell) | CallbackRef(fn: nat)
  {
    /** `ref == null`. */
    predicate IsNullish() {
      UndefinedRef? || NullRef?
    }

    /** The refs the callback writes: observables and functions. */
    predicate IsWritable() {
      ObservableRef? || CallbackRef?
    }
  }

  /** The merged callback, as a value: the list it closes over. */
  datatype MergedRef = MergedRef(refs: seq<Ref>)

  /** `null` exactly when every entry is `null` or `undefined`. */
  function UseMergeRefs(refs: seq<Ref>): (r: Option<MergedRef>)
    ensures r.None? <==> forall i :: 0 <= i < |refs| ==> refs[i].IsNullish()
    ensures r.Some? ==> r.value.refs == refs
  {
    if forall i :: 0 <= i < |refs| ==> refs[i].IsNullish() then None else Some(MergedRef(refs))
  }

  /** The positions the callback writes, in the order it writes them. */
  function WriteOrder(refs: seq<Ref>): seq<nat> {
    if refs == [] then []
    else WriteOrder(refs[..|refs| - 1]) + (if refs[|refs| - 1].IsWritable() then [|refs| - 1] else [])
  }

  /** Every observable and callback is written, each exactly once and in
      list order; nothing else is written. */
  lemma {:induction false} WriteOrderSpec(refs: seq<Ref>)
    ensures forall j :: j in WriteOrder(refs) <==> 0 <= j < |refs| && refs[j].IsWritable()
    ensures forall a, b :: 0 <= a < b < |WriteOrder(refs)| ==> WriteOrder(refs)[a] < WriteOrder(refs)[b]
    ensures forall a :: 0 <= a < |WriteOrder(refs)| ==> WriteOrder(refs)[a] < |refs|
  {
    if refs != [] {
      var init := refs[..|refs| - 1];
      WriteOrderSpec(init);
      assert forall j :: 0 <= j < |init| ==> init[j] == refs[j];
    }
  }

  /** No entry that is `null` or `undefined` is ever written. */
  lemma NullishNeverWritten(refs: seq<Ref>, j: nat)
    requires j < |refs| && refs[j].IsNullish()
    ensures j !in WriteOrder(refs)
  {
    WriteOrderSpec(refs);
  }

  /** The observable cells of the list. */
  ghost function Cells(refs: seq<Ref>): set<Cell> {
    set i | 0 <= i < |refs| && refs[i].ObservableRef? :: refs[i].cell
  }

  /** Calling the merged callback with `value`: every observable in the list
      now holds `value`, and `written` lists the positions written (the
      callbacks among them were called with `value`). */
  method Call(m: MergedRef, value: Option<NodeId>) returns (written: seq<nat>)
    modifies Cells(m.refs)
    ensures written == WriteOrder(m.refs)
    ensures forall i :: 0 <= i < |m.refs| && m.refs[i].ObservableRef? ==> m.refs[i].cell.value == value
  {
    var refs := m.refs;
    written := [];
    for i := 0 to |refs|
      invariant written == WriteOrder(refs[..i])
      invariant forall j :: 0 <= j < i && refs[j].ObservableRef? ==> refs[j].cell.value == value
    {
      assert refs[..i + 1][..i] == refs[..i];
      match refs[i]
      case ObservableRef(cell) =>
        cell.value := value;
        written := written + [i];
      case CallbackRef(_) =>
        written := written + [i];
      case _ =>
    }
    assert refs[..|refs|] == refs;
  }

  /** A list of one observable, one `undefined` and one callback: the
      observable receives the element and both refs are written, in order. */
  method ObservableAndCallback(element: NodeId) returns (held: Option<NodeId>, written: seq<nat>)
    ensures held == Some(element) && written == [0, 2]
  {
    var cell := new Cell(None);
    var refs := [ObservableRef(cell), UndefinedRef, CallbackRef(7)];
    assert !refs[0].IsNullish();
    var merged := UseMergeRefs(refs);
    assert refs[..1][..0] == [] && WriteOrder(refs[..1]) == [0];
    assert refs[..2][..1] == refs[..1] && WriteOrder(refs[..2]) == [0];
    assert refs[..|refs| - 1] == refs[..2];
    written := Call(merged.value, Some(element));
    held := cell.value;
  }
}
