/** The DOM helpers shared by the hooks: which pointer types count as
    mouse-like, and which elements accept typed text. */
module DomUtils {
  import opened Common

  /** `isMouseLikePointerType`: strict mode accepts only `'mouse'`; otherwise
      a pen counts as a mouse as well. */
  predicate IsMouseLikePointerType(pointerType: Option<string>, strict: bool)
  {
    if strict then pointerType == Some("mouse")
    else pointerType == Some("mouse") || pointerType == Some("pen")
  }

  /** An unknown pointer type is never mouse-like, strict mode admits only the
      mouse, and strict mode never admits more than lax mode. */
  lemma MouseLikeFacts(pointerType: Option<string>)
    ensures IsMouseLikePointerType(None, false) == false
    ensures IsMouseLikePointerType(pointerType, true) <==> pointerType == Some("mouse")
    ensures IsMouseLikePointerType(pointerType, true) ==> IsMouseLikePointerType(pointerType, false)
    ensures IsMouseLikePointerType(pointerType, false) && !IsMouseLikePointerType(pointerType, true)
            <==> pointerType == Some("pen")
    ensures IsMouseLikePointerType(Some("touch"), false) == false
  {
  }

  /** Input types the last clause of `isTypeableElement` excludes. */
  const NonTypeableInputTypes: seq<string> :=
    ["checkbox", "radio", "file", "submit", "reset", "button", "image", "hidden"]

  /** `isTypeableElement`: an `input` or `textarea` tag (case-insensitive), or
      a content-editable element; `null` is not typeable. */
  predicate IsTypeableElement(element: Option<Element>)
  {
    element.Some? &&
    var tag := Lower(element.value.tagName);
    var typeable := element.value.inputType !in NonTypeableInputTypes;
    tag == "input" || tag == "textarea" || element.value.isContentEditable ||
    (tag == "input" && typeable)
  }

  /** The input-type exclusion list never changes the answer: every `input`
      is typeable, whatever its `type`. */
  lemma TypeableIgnoresInputType(e: Element)
    ensures IsTypeableElement(Some(e)) <==>
      (Lower(e.tagName) == "input" || Lower(e.tagName) == "textarea" || e.isContentEditable)
    ensures IsTypeableElement(Some(e)) == IsTypeableElement(Some(e.(inputType := "checkbox")))
  {
  }
}
