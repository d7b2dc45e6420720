/** Property objects as the hooks build and merge them.  A JavaScript object
    is an ordered list of entries (insertion order is the order of
    `Object.keys`); reading a key finds its entry, assigning a key replaces
    the entry in place or appends a new one, and `{...a, ...b}` assigns b's
    entries onto a copy of a, one by one. */
module Props {
  import opened Common

  /** The values a props object holds.  A function is abstract (`Fn`), or the
      chained handler that `mergeProps` installs (`Merged`), which calls each
      listed function in turn. */
  datatype Value =
    | Undefined
    | Null
    | Bool(b: bool)
    | Num(n: int)
    | Str(s: string)
    | Fn(id: nat)
    | Merged(fns: seq<Value>)

  predicate IsFunction(v: Value) { v.Fn? || v.Merged? }

  type Entry = (string, Value)
  type Object = seq<Entry>

  function Keys(o: Object): seq<string> {
    seq(|o|, i requires 0 <= i < |o| => o[i].0)
  }

  /** `o[k]`, `None` when `k` is not an own key. */
  function Get(o: Object, k: string): Option<Value> {
    if o == [] then None
    else if o[0].0 == k then Some(o[0].1)
    else Get(o[1..], k)
  }

  /** `o[k] = v`. */
  function Set(o: Object, k: string, v: Value): Object {
    if o == [] then [(k, v)]
    else if o[0].0 == k then [(k, v)] + o[1..]
    else [o[0]] + Set(o[1..], k, v)
  }

  /** The value of the last entry with key `k`: what an assignment sequence
      leaves behind for `k`. */
  function Last(o: Object, k: string): Option<Value> {
    if o == [] then None
    else if o[|o| - 1].0 == k then Some(o[|o| - 1].1)
    else Last(o[..|o| - 1], k)
  }

  /** `{...a, ...b}`. */
  function Spread(a: Object, b: Object): Object {
    if b == [] then a
    else Set(Spread(a, b[..|b| - 1]), b[|b| - 1].0, b[|b| - 1].1)
  }

  /** `{...a, ...b}` where `b` may be `undefined`, `null` or `false`. */
  function SpreadOpt(a: Object, b: Option<Object>): Object {
    match b
    case None => a
    case Some(o) => Spread(a, o)
  }

  /** The object without the listed keys (a rest pattern, or `delete`). */
  function Omit(o: Object, ks: set<string>): Object {
    if o == [] then []
    else if o[0].0 in ks then Omit(o[1..], ks)
    else [o[0]] + Omit(o[1..], ks)
  }

  /** JavaScript truthiness. */
  predicate Truthy(v: Value) {
    match v
    case Undefined => false
    case Null => false
    case Bool(b) => b
    case Num(n) => n != 0
    case Str(s) => s != ""
    case Fn(_) => true
    case Merged(_) => true
  }

  /** `o[k]`, reading `undefined` for a missing key. */
  function GetOr(o: Object, k: string): Value {
    match Get(o, k)
    case None => Undefined
    case Some(v) => v
  }

  /** An assignment reads back, and leaves every other key as it was. */
  lemma {:induction false} GetSet(o: Object, k: string, v: Value, k': string)
    ensures Get(Set(o, k, v), k') == if k' == k then Some(v) else Get(o, k')
  {
    if o != [] && o[0].0 != k {
      GetSet(o[1..], k, v, k');
      assert Set(o, k, v)[1..] == Set(o[1..], k, v);
    }
  }

  /** Spreading `b` over `a`: keys of `b` take b's last value, all other keys
      keep a's value. */
  lemma {:induction false} SpreadGet(a: Object, b: Object, k: string)
    ensures Get(Spread(a, b), k) == if Last(b, k).Some? then Last(b, k) else Get(a, k)
  {
    if b != [] {
      var init := b[..|b| - 1];
      SpreadGet(a, init, k);
      GetSet(Spread(a, init), b[|b| - 1].0, b[|b| - 1].1, k);
    }
  }

  lemma {:induction false} SpreadOptGet(a: Object, b: Option<Object>, k: string)
    ensures Get(SpreadOpt(a, b), k) ==
      if b.Some? && Last(b.value, k).Some? then Last(b.value, k) else Get(a, k)
  {
    if b.Some? {
      SpreadGet(a, b.value, k);
    }
  }

  /** Omitted keys are gone; every other key reads as before. */
  lemma {:induction false} OmitGet(o: Object, ks: set<string>, k: string)
    ensures Get(Omit(o, ks), k) == if k in ks then None else Get(o, k)
  {
    if o != [] {
      OmitGet(o[1..], ks, k);
    }
  }

  lemma {:induction false} OmitLast(o: Object, ks: set<string>, k: string)
    ensures Last(Omit(o, ks), k) == if k in ks then None else Last(o, k)
  {
    if o != [] {
      var init := o[..|o| - 1];
      OmitSnoc(init, o[|o| - 1], ks);
      assert init + [o[|o| - 1]] == o;
      OmitLast(init, ks, k);
      var om := Omit(init, ks);
      if o[|o| - 1].0 !in ks {
        var r := om + [o[|o| - 1]];
        assert Omit(o, ks) == r;
        assert r[..|r| - 1] == om;
        assert r[|r| - 1] == o[|o| - 1];
        assert Last(r, k) == if o[|o| - 1].0 == k then Some(o[|o| - 1].1) else Last(om, k);
      } else {
        assert Omit(o, ks) == om + [];
        assert om + [] == om;
      }
    }
  }

  lemma {:induction false} OmitSnoc(o: Object, e: Entry, ks: set<string>)
    ensures Omit(o + [e], ks) == Omit(o, ks) + (if e.0 in ks then [] else [e])
  {
    if o == [] {
      assert [e][1..] == [];
    } else {
      assert (o + [e])[1..] == o[1..] + [e];
      OmitSnoc(o[1..], e, ks);
    }
  }

  /** A JavaScript object never repeats a key. */
  predicate UniqueKeys(o: Object) {
    forall i, j :: 0 <= i < j < |o| ==> o[i].0 != o[j].0
  }

  lemma {:induction false} GetSome(o: Object, k: string)
    ensures Get(o, k).Some? <==> exists i :: 0 <= i < |o| && o[i].0 == k
  {
    if o != [] {
      GetSome(o[1..], k);
      if Get(o[1..], k).Some? {
        var i :| 0 <= i < |o[1..]| && o[1..][i].0 == k;
        assert o[i + 1].0 == k;
      }
      forall i | 1 <= i < |o| && o[i].0 == k
        ensures exists i' :: 0 <= i' < |o[1..]| && o[1..][i'].0 == k
      {
        assert o[1..][i - 1].0 == k;
      }
    }
  }

  /** Assignment keeps keys unique. */
  lemma SetUnique(o: Object, k: string, v: Value)
    requires UniqueKeys(o)
    ensures UniqueKeys(Set(o, k, v))
    ensures Keys(Set(o, k, v)) == if Get(o, k).Some? then Keys(o) else Keys(o) + [k]
  {
    SetKeys(o, k, v);
    GetKeys(o, k);
    var r := Set(o, k, v);
    forall i, j | 0 <= i < j < |r|
      ensures r[i].0 != r[j].0
    {
      assert Keys(r)[i] == r[i].0 && Keys(r)[j] == r[j].0;
      if j < |o| {
        assert Keys(o)[i] == o[i].0 && Keys(o)[j] == o[j].0;
      } else {
        assert Keys(o)[i] == o[i].0;
      }
    }
  }

  lemma KeysCons(e: Entry, o: Object)
    ensures Keys([e] + o) == [e.0] + Keys(o)
  {
  }

  /** An own key is one that some entry carries. */
  lemma {:induction false} GetKeys(o: Object, k: string)
    ensures Get(o, k).Some? <==> k in Keys(o)
  {
    if o != [] {
      GetKeys(o[1..], k);
      assert o == [o[0]] + o[1..];
      KeysCons(o[0], o[1..]);
    }
  }

  /** Assignment replaces the value of an own key in place and appends a
      new key at the end. */
  lemma {:induction false} SetKeys(o: Object, k: string, v: Value)
    ensures Keys(Set(o, k, v)) == if k in Keys(o) then Keys(o) else Keys(o) + [k]
  {
    if o == [] {
      assert Keys([(k, v)]) == [k];
    } else {
      var rest := o[1..];
      assert o == [o[0]] + rest;
      KeysCons(o[0], rest);
      if o[0].0 == k {
        KeysCons((k, v), rest);
      } else {
        SetKeys(rest, k, v);
        KeysCons(o[0], Set(rest, k, v));
        AppendAssoc([o[0].0], Keys(rest), [k]);
      }
    }
  }

  /** With unique keys, the first and the last entry for a key coincide. */
  lemma {:induction false} LastIsGet(o: Object, k: string)
    requires UniqueKeys(o)
    ensures Last(o, k) == Get(o, k)
  {
    if o != [] {
      var init := o[..|o| - 1];
      assert UniqueKeys(init);
      LastIsGet(init, k);
      GetSnoc(init, o[|o| - 1], k);
      assert init + [o[|o| - 1]] == o;
      if o[|o| - 1].0 == k {
        GetSome(init, k);
        assert forall i :: 0 <= i < |init| ==> init[i].0 != k by {
          forall i | 0 <= i < |init| ensures init[i].0 != k {
            assert o[i].0 != o[|o| - 1].0;
          }
        }
      }
    }
  }

  lemma {:induction false} GetSnoc(o: Object, e: Entry, k: string)
    ensures Get(o + [e], k) == if Get(o, k).Some? then Get(o, k) else if e.0 == k then Some(e.1) else None
  {
    if o != [] {
      assert (o + [e])[1..] == o[1..] + [e];
      GetSnoc(o[1..], e, k);
    }
  }

  /** In a concatenation of entry lists the first list is searched first. */
  lemma {:induction false} GetAppend(a: Object, b: Object, k: string)
    ensures Get(a + b, k) == if Get(a, k).Some? then Get(a, k) else Get(b, k)
  {
    if a == [] {
      assert a + b == b;
    } else {
      assert (a + b)[0] == a[0];
      assert (a + b)[1..] == a[1..] + b;
      GetAppend(a[1..], b, k);
    }
  }

  lemma GetSingle(k: string, v: Value, k': string)
    ensures Get([(k, v)], k') == if k == k' then Some(v) else None
  {
    if k != k' {
      assert [(k, v)][1..] == [];
    }
  }

  /** `...(c && o)`: the entries of `o` when `c` holds, none otherwise. */
  function When(c: bool, o: Object): Object {
    if c then o else []
  }

  lemma GetWhen(c: bool, k: string, v: Value, k': string)
    ensures Get(When(c, [(k, v)]), k') == if c && k == k' then Some(v) else None
  {
    GetSingle(k, v, k');
  }

  /** Which object a hook hands `mergeProps` for one element: none, a props
      object, or (for items) a getter called with the caller's props. */
  datatype Slot = NoProps | Props(obj: Object) | Getter(get: Object -> Option<Object>)

  /** `ElementProps`: what each interaction hook returns. */
  datatype ElementProps = ElementProps(reference: Slot, floating: Slot, item: Slot)

  /** `{}`: the value of a disabled hook. */
  const NoElementProps := ElementProps(NoProps, NoProps, NoProps)

  /** The handlers object of a hook: `enabled ? {...} : {}`. */
  function HookProps(enabled: bool, reference: Slot, floating: Slot, item: Slot): (r: ElementProps)
    ensures !enabled ==> r == NoElementProps
    ensures enabled ==> r.reference == reference && r.floating == floating && r.item == item
  {
    if enabled then ElementProps(reference, floating, item) else NoElementProps
  }
}
