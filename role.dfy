/** `useRole`: the ARIA attributes of the reference, the floating element and
    the list items for the role of the floating element.  The two ids come
    from `useId` and are parameters here. */
module Role {
  import opened Common
  import opened Props

  const DefaultRole := "dialog"

  /** `componentRoleToAriaRoleMap.get(role) ?? role`; `None` stands for the
      `false` that `label` maps to. */
  function AriaRole(role: string): (r: Option<string>)
    ensures role == "select" || role == "combobox" ==> r == Some("listbox")
    ensures role == "label" ==> r == None
    ensures role != "select" && role != "combobox" && role != "label" ==> r == Some(role)
  {
    if role == "select" || role == "combobox" then Some("listbox")
    else if role == "label" then None
    else Some(role)
  }

  /** The `ariaRole` value as a property value. */
  function AriaValue(ariaRole: Option<string>): Value {
    if ariaRole.Some? then Str(ariaRole.value) else Bool(false)
  }

  /** Tooltips and labels only point at the floating element. */
  predicate Describes(role: string) {
    AriaRole(role) == Some("tooltip") || role == "label"
  }

  /** The reference props.  `isNested` is constant false (the parent id is
      `null`), so the `menuitem` role is never added. */
  function ReferenceProps(role: string, referenceId: string, floatingId: string): Object {
    var ariaRole := AriaRole(role);
    if Describes(role) then
      [(if role == "label" then "aria-labelledby" else "aria-describedby", Str(floatingId))]
    else
      [("aria-expanded", Str("false"))]
      + [("aria-haspopup", if ariaRole == Some("alertdialog") then Str("dialog") else AriaValue(ariaRole))]
      + [("aria-controls", Str(floatingId))]
      + When(ariaRole == Some("listbox"), [("role", Str("combobox"))])
      + When(ariaRole == Some("menu"), [("id", Str(referenceId))])
      + When(role == "select", [("aria-autocomplete", Str("none"))])
      + When(role == "combobox", [("aria-autocomplete", Str("list"))])
  }

  /** The floating props: its id, the role when it is truthy, and for menus
      the label pointing back at the reference. */
  function FloatingProps(role: string, referenceId: string, floatingId: string): Object {
    var ariaRole := AriaRole(role);
    [("id", Str(floatingId))]
    + When(ariaRole.Some? && ariaRole.value != "", [("role", AriaValue(ariaRole))])
    + When(!Describes(role) && ariaRole == Some("menu"), [("aria-labelledby", Str(referenceId))])
  }

  /** The item props for `{active, selected}` read from the item's props:
      options of a select or a combobox; no attribute for any other role. */
  function ItemProps(role: string, floatingId: string, props: Object): Object {
    var active := GetOr(props, "active");
    var selected := GetOr(props, "selected");
    var common := [("role", Str("option"))] + When(Truthy(active), [("id", Str(floatingId + "-option"))]);
    if role == "select" then common + [("aria-selected", if Truthy(active) then selected else active)]
    else if role == "combobox" then common + [("aria-selected", selected)]
    else []
  }

  /** `enabled ? { reference, floating, item } : {}`. */
  function UseRole(enabled: bool, role: string, referenceId: string, floatingId: string): (r: ElementProps)
    ensures !enabled ==> r == NoElementProps
    ensures enabled ==> r.reference == Props(ReferenceProps(role, referenceId, floatingId)) &&
                        r.floating == Props(FloatingProps(role, referenceId, floatingId)) &&
                        r.item.Getter? &&
                        forall p :: r.item.get(p) == Some(ItemProps(role, floatingId, p))
  {
    HookProps(enabled, Props(ReferenceProps(role, referenceId, floatingId)),
              Props(FloatingProps(role, referenceId, floatingId)),
              Getter(p => Some(ItemProps(role, floatingId, p))))
  }

  /** A tooltip or a label: the reference carries exactly one attribute,
      naming the floating element. */
  lemma DescribingReference(role: string, referenceId: string, floatingId: string)
    requires Describes(role)
    ensures var r := ReferenceProps(role, referenceId, floatingId);
      && Keys(r) == [if role == "label" then "aria-labelledby" else "aria-describedby"]
      && Get(r, Keys(r)[0]) == Some(Str(floatingId))
  {
  }

  /** The value reading key `k` gives on a popup reference. */
  function PopupAttribute(role: string, referenceId: string, floatingId: string, k: string): Option<Value> {
    var ariaRole := AriaRole(role);
    if k == "aria-expanded" then Some(Str("false"))
    else if k == "aria-haspopup" then Some(if ariaRole == Some("alertdialog") then Str("dialog") else AriaValue(ariaRole))
    else if k == "aria-controls" then Some(Str(floatingId))
    else if k == "role" && ariaRole == Some("listbox") then Some(Str("combobox"))
    else if k == "id" && ariaRole == Some("menu") then Some(Str(referenceId))
    else if k == "aria-autocomplete" && role == "select" then Some(Str("none"))
    else if k == "aria-autocomplete" && role == "combobox" then Some(Str("list"))
    else None
  }

  lemma {:induction false} PopupReferenceGet(role: string, referenceId: string, floatingId: string, k: string)
    requires !Describes(role)
    ensures Get(ReferenceProps(role, referenceId, floatingId), k) == PopupAttribute(role, referenceId, floatingId, k)
  {
    var ariaRole := AriaRole(role);
    var e1: Object := [("aria-expanded", Str("false"))];
    var e2: Object := [("aria-haspopup", if ariaRole == Some("alertdialog") then Str("dialog") else AriaValue(ariaRole))];
    var e3: Object := [("aria-controls", Str(floatingId))];
    var p1 := When(ariaRole == Some("listbox"), [("role", Str("combobox"))]);
    var p2 := When(ariaRole == Some("menu"), [("id", Str(referenceId))]);
    var p3 := When(role == "select", [("aria-autocomplete", Str("none"))]);
    var p4 := When(role == "combobox", [("aria-autocomplete", Str("list"))]);
    GetAppend(e1 + e2 + e3 + p1 + p2 + p3, p4, k);
    GetAppend(e1 + e2 + e3 + p1 + p2, p3, k);
    GetAppend(e1 + e2 + e3 + p1, p2, k);
    GetAppend(e1 + e2 + e3, p1, k);
    GetAppend(e1 + e2, e3, k);
    GetAppend(e1, e2, k);
    GetSingle("aria-expanded", Str("false"), k);
    GetSingle("aria-haspopup", e2[0].1, k);
    GetSingle("aria-controls", Str(floatingId), k);
    GetWhen(ariaRole == Some("listbox"), "role", Str("combobox"), k);
    GetWhen(ariaRole == Some("menu"), "id", Str(referenceId), k);
    GetWhen(role == "select", "aria-autocomplete", Str("none"), k);
    GetWhen(role == "combobox", "aria-autocomplete", Str("list"), k);
  }

  /** Every other role: the popup attributes, `role: combobox` exactly for
      a listbox, and the autocomplete mode of selects and comboboxes. */
  lemma PopupReference(role: string, referenceId: string, floatingId: string)
    requires !Describes(role)
    ensures var r := ReferenceProps(role, referenceId, floatingId);
      var ariaRole := AriaRole(role);
      && Get(r, "aria-expanded") == Some(Str("false"))
      && Get(r, "aria-haspopup") == Some(if role == "alertdialog" then Str("dialog") else AriaValue(ariaRole))
      && Get(r, "aria-controls") == Some(Str(floatingId))
      && Get(r, "role") == (if ariaRole == Some("listbox") then Some(Str("combobox")) else None)
      && Get(r, "id") == (if role == "menu" then Some(Str(referenceId)) else None)
      && Get(r, "aria-autocomplete") ==
           (if role == "select" then Some(Str("none"))
            else if role == "combobox" then Some(Str("list"))
            else None)
      && Get(r, "aria-describedby").None? && Get(r, "aria-labelledby").None?
  {
    PopupReferenceGet(role, referenceId, floatingId, "aria-expanded");
    PopupReferenceGet(role, referenceId, floatingId, "aria-haspopup");
    PopupReferenceGet(role, referenceId, floatingId, "aria-controls");
    PopupReferenceGet(role, referenceId, floatingId, "role");
    PopupReferenceGet(role, referenceId, floatingId, "id");
    PopupReferenceGet(role, referenceId, floatingId, "aria-autocomplete");
    PopupReferenceGet(role, referenceId, floatingId, "aria-describedby");
    PopupReferenceGet(role, referenceId, floatingId, "aria-labelledby");
  }

  /** The floating element: its id, a role exactly when the ARIA role is
      truthy (so none for a label), and `aria-labelledby` only for menus. */
  lemma FloatingAttributes(role: string, referenceId: string, floatingId: string)
    ensures var r := FloatingProps(role, referenceId, floatingId);
      var ariaRole := AriaRole(role);
      && Get(r, "id") == Some(Str(floatingId))
      && Get(r, "role") == (if ariaRole.Some? && ariaRole.value != "" then Some(Str(ariaRole.value)) else None)
      && Get(r, "aria-labelledby") == (if role == "menu" then Some(Str(referenceId)) else None)
      && (role == "label" ==> Get(r, "role").None?)
  {
    var ariaRole := AriaRole(role);
    var head: Object := [("id", Str(floatingId))];
    var p1 := When(ariaRole.Some? && ariaRole.value != "", [("role", AriaValue(ariaRole))]);
    var p2 := When(!Describes(role) && ariaRole == Some("menu"), [("aria-labelledby", Str(referenceId))]);
    forall k: string
      ensures Get(head + p1 + p2, k) ==
        if Get(head, k).Some? then Get(head, k) else if Get(p1, k).Some? then Get(p1, k) else Get(p2, k)
      ensures Get(head, k) == (if k == "id" then Some(Str(floatingId)) else None)
      ensures Get(p1, k) == (if ariaRole.Some? && ariaRole.value != "" && k == "role" then Some(AriaValue(ariaRole)) else None)
      ensures Get(p2, k) == (if !Describes(role) && ariaRole == Some("menu") && k == "aria-labelledby" then Some(Str(referenceId)) else None)
    {
      GetAppend(head + p1, p2, k);
      GetAppend(head, p1, k);
      GetSingle("id", Str(floatingId), k);
      GetWhen(ariaRole.Some? && ariaRole.value != "", "role", AriaValue(ariaRole), k);
      GetWhen(!Describes(role) && ariaRole == Some("menu"), "aria-labelledby", Str(referenceId), k);
    }
  }

  /** Options of a select are selected when active and selected, options of
      a combobox when selected; both carry `role: option` and, when active,
      the option id.  Items of every other role get no attribute. */
  lemma ItemAttributes(role: string, floatingId: string, props: Object)
    ensures var r := ItemProps(role, floatingId, props);
      var active := GetOr(props, "active");
      var selected := GetOr(props, "selected");
      && (role != "select" && role != "combobox" ==> r == [])
      && (role == "select" || role == "combobox" ==>
            && Get(r, "role") == Some(Str("option"))
            && Get(r, "id") == (if Truthy(active) then Some(Str(floatingId + "-option")) else None))
      && (role == "select" ==> Get(r, "aria-selected") == Some(if Truthy(active) then selected else active))
      && (role == "combobox" ==> Get(r, "aria-selected") == Some(selected))
  {
    var active := GetOr(props, "active");
    var selected := GetOr(props, "selected");
    var head: Object := [("role", Str("option"))];
    var p1 := When(Truthy(active), [("id", Str(floatingId + "-option"))]);
    var tail: Object := [("aria-selected", if role == "select" then (if Truthy(active) then selected else active) else selected)];
    if role == "select" || role == "combobox" {
      assert ItemProps(role, floatingId, props) == head + p1 + tail;
      forall k: string
        ensures Get(head + p1 + tail, k) ==
          if Get(head, k).Some? then Get(head, k) else if Get(p1, k).Some? then Get(p1, k) else Get(tail, k)
        ensures Get(head, k) == (if k == "role" then Some(Str("option")) else None)
        ensures Get(p1, k) == (if Truthy(active) && k == "id" then Some(Str(floatingId + "-option")) else None)
        ensures Get(tail, k) == (if k == "aria-selected" then Some(tail[0].1) else None)
      {
        GetAppend(head + p1, tail, k);
        GetAppend(head, p1, k);
        GetSingle("role", Str("option"), k);
        GetWhen(Truthy(active), "id", Str(floatingId + "-option"), k);
        GetSingle("aria-selected", tail[0].1, k);
      }
    }
  }
}
