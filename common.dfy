/** Shared vocabulary of the interaction hooks: optional values, the reason
    attached to an open-state change, the floating context whose `open` and
    `reason` cells every hook writes, DOM nodes by identity, and the ASCII
    lower-casing that stands in for `toLowerCase`. */
module Common {

  datatype Option<+T> = None | Some(value: T)

  /** `OpenChangeReason`: what caused the last write of the `open` cell. */
  datatype Reason =
    | OutsidePress | EscapeKey | AncestorScroll | ReferencePress | Click
    | Hover | Focus | FocusOut | ListNavigation | SafePolygon

  /** A DOM node, by identity. */
  type NodeId = int

  /** An element as the hooks inspect it: its tag name, the `type` attribute
      of an input, `isContentEditable`, and whether it is an `HTMLElement`
      (an SVG element is an `Element` but not an `HTMLElement`). */
  datatype Element = Element(id: NodeId, tagName: string, inputType: string,
                             isContentEditable: bool, isHTMLElement: bool)

  /** An event target: an element, or another kind of node (a text node,
      the document). */
  datatype Target = ElementTarget(element: Element) | NodeTarget(node: NodeId)
  {
    function Id(): NodeId {
      match this
      case ElementTarget(e) => e.id
      case NodeTarget(n) => n
    }
    predicate IsElement() { ElementTarget? }
    predicate IsHTMLElement() { ElementTarget? && element.isHTMLElement }
  }

  function TargetId(t: Option<Target>): Option<NodeId> {
    match t
    case None => None
    case Some(x) => Some(x.Id())
  }

  /** The local `contains(parent, child)` helper of the hooks: false when
      either side is missing, otherwise `parent === child ||
      parent.contains(child)`.  `within(p, c)` is the DOM's `contains`
      relation at the time of the call. */
  predicate Contains(within: (NodeId, NodeId) -> bool, parent: Option<NodeId>, child: Option<NodeId>)
  {
    parent.Some? && child.Some? && (parent.value == child.value || within(parent.value, child.value))
  }

  /** The fields of a `KeyboardEvent` the hooks read. */
  datatype KeyEvent = KeyEvent(key: string, ctrlKey: bool, metaKey: bool, altKey: bool, defaultPrevented: bool)

  predicate IsUpper(c: char) { 'A' <= c <= 'Z' }
  predicate IsLowerAlpha(c: char) { 'a' <= c <= 'z' }

  function LowerChar(c: char): char {
    if IsUpper(c) then (c as int + 32) as char else c
  }

  /** The UTF-16 code units of a character: two for one outside the Basic
      Multilingual Plane (a surrogate pair), one otherwise. */
  function Utf16Units(c: char): nat {
    if c as int >= 0x1_0000 then 2 else 1
  }

  /** JavaScript's `length` of a string: its count of UTF-16 code units. */
  function Utf16Length(s: string): (n: nat)
    ensures n >= |s|
  {
    if s == [] then 0 else Utf16Length(s[..|s| - 1]) + Utf16Units(s[|s| - 1])
  }

  /** A string of JavaScript length 1 is a single character of the Basic
      Multilingual Plane; an emoji alone has length 2. */
  lemma Utf16LengthOne(s: string)
    ensures Utf16Length(s) == 1 <==> |s| == 1 && (s[0] as int) < 0x1_0000
  {
    if |s| >= 2 {
      assert Utf16Length(s) >= |s|;
    } else if |s| == 1 {
      assert s[..0] == [];
    }
  }

  /** `toLowerCase` / `toLocaleLowerCase`, on ASCII letters only. */
  function Lower(s: string): (r: string)
    ensures |r| == |s|
  {
    seq(|s|, i requires 0 <= i < |s| => LowerChar(s[i]))
  }

  /** JavaScript truthiness of an optional string (`''` and `undefined` are falsy). */
  predicate TruthyStr(s: Option<string>) { s.Some? && s.value != "" }

  /** `list.filter(y => y !== x)`: every other element, in order. */
  function Without<T(==)>(s: seq<T>, x: T): (r: seq<T>)
    ensures |r| <= |s|
    ensures x !in s ==> r == s
  {
    if s == [] then []
    else Without(s[..|s| - 1], x) + (if s[|s| - 1] == x then [] else [s[|s| - 1]])
  }

  /** The survivors are exactly the elements other than `x`. */
  lemma {:induction false} WithoutMembers<T>(s: seq<T>, x: T)
    ensures forall i :: 0 <= i < |Without(s, x)| ==> Without(s, x)[i] in s && Without(s, x)[i] != x
    ensures forall i :: 0 <= i < |s| && s[i] != x ==> s[i] in Without(s, x)
  {
    if s != [] {
      WithoutMembers(s[..|s| - 1], x);
      assert s == s[..|s| - 1] + [s[|s| - 1]];
    }
  }

  /** Filtering distributes over concatenation, so the survivors keep their
      relative order. */
  lemma {:induction false} WithoutAppend<T>(a: seq<T>, b: seq<T>, x: T)
    ensures Without(a + b, x) == Without(a, x) + Without(b, x)
    decreases |b|
  {
    if b == [] {
      assert a + b == a;
    } else {
      var b' := b[..|b| - 1];
      assert (a + b)[..|a + b| - 1] == a + b';
      assert (a + b)[|a + b| - 1] == b[|b| - 1];
      WithoutAppend(a, b', x);
    }
  }

  /** Concatenation regroups freely. */
  lemma AppendAssoc<T>(a: seq<T>, b: seq<T>, c: seq<T>)
    ensures a + (b + c) == a + b + c
  {
  }

  /** Appending an element that was absent and filtering it out again gives
      back the original sequence. */
  lemma WithoutAfterAppend<T>(s: seq<T>, x: T)
    requires x !in s
    ensures Without(s + [x], x) == s
  {
    assert (s + [x])[..|s + [x]| - 1] == s;
  }

  // Decimal text of numbers (template literals and `String(n)`).

  function DigitChar(d: nat): char
    requires d < 10
  {
    ('0' as int + d) as char
  }

  predicate IsDigit(c: char) { '0' <= c <= '9' }

  /** The decimal text of a non-negative integer, without leading zeros. */
  function NatToString(n: nat): (r: string)
    ensures |r| >= 1 && forall k :: 0 <= k < |r| ==> IsDigit(r[k])
    ensures r[0] == '0' ==> n == 0
  {
    if n < 10 then [DigitChar(n)] else NatToString(n / 10) + [DigitChar(n % 10)]
  }

  /** `${n}` for an integer `n`. */
  function IntToString(n: int): (r: string)
    ensures |r| >= 1
    ensures r[0] == '-' <==> n < 0
  {
    if n < 0 then "-" + NatToString(-n) else NatToString(n)
  }

  function ParseNat(s: string): int
    requires forall k :: 0 <= k < |s| ==> IsDigit(s[k])
  {
    if s == [] then 0 else ParseNat(s[..|s| - 1]) * 10 + (s[|s| - 1] as int - '0' as int)
  }

  function ParseInt(s: string): int
    requires |s| >= 1
    requires s[0] == '-' ==> forall k :: 1 <= k < |s| ==> IsDigit(s[k])
    requires s[0] != '-' ==> forall k :: 0 <= k < |s| ==> IsDigit(s[k])
  {
    if s[0] == '-' then -ParseNat(s[1..]) else ParseNat(s)
  }

  lemma {:induction false} ParseNatToString(n: nat)
    ensures ParseNat(NatToString(n)) == n
  {
    if n >= 10 {
      ParseNatToString(n / 10);
      var s := NatToString(n);
      assert s[..|s| - 1] == NatToString(n / 10);
    }
  }

  /** The decimal text reads back as the same integer. */
  lemma IntToStringRoundTrip(n: int)
    ensures ParseInt(IntToString(n)) == n
  {
    if n < 0 {
      ParseNatToString(-n);
      assert IntToString(n)[1..] == NatToString(-n);
    } else {
      ParseNatToString(n);
    }
  }

  /** The floating context shared by all hooks of one floating element: the
      `open` cell and the `reason` cell.  Every hook changes both together,
      in one batch. */
  class FloatingContext {
    var open: bool
    var reason: Option<Reason>

    constructor (initiallyOpen: bool)
      ensures open == initiallyOpen && reason == None
    {
      open := initiallyOpen;
      reason := None;
    }

    /** `batch(() => { open(value); reason(why) })`. */
    method SetOpen(value: bool, why: Reason)
      modifies this
      ensures open == value && reason == Some(why)
    {
      open := value;
      reason := Some(why);
    }
  }
}
