# Floating UI interactions for Woby, in Dafny

A model of the interaction layer of the Woby port of Floating UI, with proofs about it. Interaction hooks decide, from
abstract input events, whether a floating element (tooltip, popover, menu, listbox) is open and why. The model covers:

- the prop getters that merge the hooks' handler sets;
- the keyboard list navigation and the typeahead buffer;
- the click, hover, focus and dismiss engines;
- transition status and styles, and role attributes;
- the client-point virtual rectangle;
- the position binding of the DOM package;
- the floating tree; and
- merged refs.

Every hook keeps a few cells: `open`, `reason`, a pointer type, timer handles, a typed-string buffer. A hook that
updates its own cells is a `class`, and its event handlers are methods with `modifies` clauses. The shared
`open`/`reason` pair is the `FloatingContext` class in `Common`. Every hook writes the pair together through
`SetOpen`, which is the `batch(() => { open(x); reason(r) })` of the source. The parts that only compute are
functions, and lemmas connect them:

- key classification;
- `getDelay`;
- `normalizeProp`;
- `camelCaseToKebabCase`;
- the role attribute sets;
- the style shapes.

Things outside the hooks become explicit inputs:

- DOM queries, such as containment, the active element, computed overflow styles or inert markers, are parameters,
  or fields of an abstract event or element record.
- A timer is a handle the caller supplies together with a "timer fired" method.
- Browser sniffing (`isMac`, `isSafari`) is a boolean parameter.
- The asynchronous `computePosition` is a counted request whose result arrives through `Resolve`.
- Handlers are abstract values (`Fn(id)`) whose calls are traced.

One module per source file:

| module | file |
|---|---|
| `Common`, `Props` | shared vocabulary (options, reasons, elements, the floating context; JavaScript values and ordered objects with spread, omit and lookup) |
| `DomUtils` | packages/woby-dom/src/utils/index.ts |
| `Interactions` | packages/woby/src/hooks/useInteractions.ts |
| `ListNavigation` | packages/woby/src/hooks/useListNavigation.ts |
| `Typeahead` | packages/woby/src/hooks/useTypeahead.ts |
| `Click` | packages/woby/src/hooks/useClick.ts |
| `Hover` | packages/woby/src/hooks/useHover.ts |
| `Focus` | packages/woby/src/hooks/useFocus.ts |
| `Dismiss` | packages/woby/src/hooks/useDismiss.ts |
| `Transition` | packages/woby/src/hooks/useTransition.ts |
| `Role` | packages/woby/src/hooks/useRole.ts |
| `ClientPoint` | packages/woby/src/hooks/useClientPoint.ts |
| `Positioning` | packages/woby-dom/src/useFloating.ts |
| `FloatingTree` | packages/woby/src/components/FloatingTree.ts |
| `MergeRefs` | packages/woby/src/hooks/useMergeRefs.ts |

Where upstream Floating UI and this port differ, the model follows the port's code:

- The position binding's `isMounted` cell is never cleared, so nothing discards a late result. A result is
  written whenever it differs from the stored data.
- The dismiss engine's drag-inside guard (`endedOrStartedInsideRef`) is never set, so it never suppresses a press.
  The composition flag (`isComposingRef`) is never set either, so Escape is never held back by it. The
  `outsidePress` function option is never called.
- A single `useTransitionStatus` call returns its status before the zero-delay timer can fire, so a call never
  returns `open`. The timer only writes the status cell that call created (`Transition.CallStatus`).
- `useMergeRefs` writes observables and functions only. A truthy plain value in the list is neither `null` nor
  written.
- The position binding stores `isPositioned: $$(openRef) !== false`. A plain `open: false` is held as `null`,
  so `Positioning.PositionBinding.Resolve` stores `true` and the open effect then resets it (see Findings;
  the corrected resolution is `ResolveIntended`).
- A hover mouseleave without `handleClose` closes at once. It does not cancel a pending open-delay timer (see
  Findings).

## Model

Members without a row are vocabulary: string and number helpers (`Common.NatToString`, `Common.ParseNat`),
the ordered-object operations of `Props` (`Get`, `Set`, `Spread`, `Omit`), and the proof steps the rows' lemmas
use (`Transition.KebabStep`, the `Lower*` lemmas and similar).

| member | source | states |
|---|---|---|
| Common.Without | packages/woby/src/components/FloatingTree.ts:98 | filtering never lengthens the list, and leaves a list without the element unchanged |
| Common.WithoutMembers | packages/woby/src/components/FloatingTree.ts:98 | the survivors of the filter are exactly the elements other than the one removed |
| Common.WithoutAppend | packages/woby/src/components/FloatingTree.ts:98 | filtering distributes over concatenation, so the survivors keep their order |
| Common.WithoutAfterAppend | packages/woby/src/components/FloatingTree.ts:93-99 | appending an absent element and filtering it out gives back the list |
| Common.IntToStringRoundTrip | packages/woby-dom/src/useFloating.ts:140 | the decimal text a template literal writes for an integer reads back as that integer |
| Common.FloatingContext.SetOpen | packages/woby/src/hooks/useClick.ts:129-132 | the open and reason cells take the new values together |
| Common.IntToString | packages/woby-dom/src/useFloating.ts:140 | the decimal text of a number in the template literal: never empty, and starting with `-` exactly for a negative number; IntToStringRoundTrip reads it back |
| Common.Utf16Length | packages/woby/src/hooks/useTypeahead.ts:137 | JavaScript's `length` counts UTF-16 code units, never fewer than the characters; Utf16LengthOne characterises length 1 |
| Common.Utf16LengthOne | packages/woby/src/hooks/useTypeahead.ts:137 | `key.length === 1` holds exactly for a single character of the Basic Multilingual Plane |
| Click.Activated | packages/woby/src/hooks/useClick.ts:124-140 | with `toggle` an activation flips `open`; without it, and from closed, it always opens |
| Click.ClickHook.constructor | packages/woby/src/hooks/useClick.ts:96-109 | the options as given; no pointer type and no armed Space |
| Click.ClickHook.Activate | packages/woby/src/hooks/useClick.ts:152-166 | `open` becomes `Activated(open, toggle)` with reason `click` |
| Click.ClickHook.OnPointerDown | packages/woby/src/hooks/useClick.ts:112-114 | the pointer type is remembered |
| Click.ClickHook.OnMouseDown | packages/woby/src/hooks/useClick.ts:115-141 | only the main button with `event: 'mousedown'`, and not a mouse under `ignoreMouse`, activates; the default is prevented exactly when it opens |
| Click.ClickHook.OnClick | packages/woby/src/hooks/useClick.ts:142-167 | with `event: 'mousedown'` after a pointer press the click only forgets the pointer type; otherwise it activates unless a mouse under `ignoreMouse` |
| Click.ClickHook.OnKeyDown | packages/woby/src/hooks/useClick.ts:168-204 | forgets the pointer type; unless prevented, disabled or on a button: Space on a non-typeable reference is prevented and arms the keyup, and Enter (not on an anchor) activates |
| Click.ClickHook.OnKeyUp | packages/woby/src/hooks/useClick.ts:205-231 | Space activates and disarms only after an armed keydown, and not on a button, a typeable reference, a prevented event or with keyboard handling off |
| Click.ClickHook.SpacePress | packages/woby/src/hooks/useClick.ts:168-231 | Space down then up activates exactly once when keyboard handling is on, the target is not a button and the reference is not typeable, even on an anchor; the keyup is left disarmed |
| Click.ClickHook.Contract | packages/woby/src/hooks/useClick.ts:111-236 | only reference props; they are absent exactly when the hook is disabled |
| DomUtils.MouseLikeFacts | packages/woby-dom/src/utils/index.ts:6-14 | strict mode accepts exactly `'mouse'`; lax mode accepts exactly `'mouse'` and `'pen'`; an undefined pointer type is never mouse-like |
| DomUtils.TypeableIgnoresInputType | packages/woby-dom/src/utils/index.ts:19-33 | an element is typeable exactly when its lower-cased tag is `input` or `textarea` or it is content-editable; the input `type` never changes the answer |
| ListNavigation.DoSwitch | packages/woby/src/hooks/useListNavigation.ts:11-24 | the vertical flag for `vertical`, the horizontal flag for `horizontal`, either one otherwise; never true when both flags are false |
| ListNavigation.RtlMirrorsHorizontalArrows | packages/woby/src/hooks/useListNavigation.ts:26-68 | under `rtl` each to-end, cross-open and cross-close classification equals the left-to-right classification of the key with Left and Right exchanged; the main-orientation test does not depend on direction |
| ListNavigation.ConfirmKeysMoveToEnd | packages/woby/src/hooks/useListNavigation.ts:35-48 | Enter, Space and the empty key move to the end in every orientation and direction |
| ListNavigation.CrossKeysDisjoint | packages/woby/src/hooks/useListNavigation.ts:26-68 | no key both opens and closes across the orientation; in a single orientation a main-orientation key is never a cross key |
| ListNavigation.NextIndexDown | packages/woby/src/hooks/useListNavigation.ts:249-254 | from any index in -1..count-1 the result is a valid item; from the last item it is the first when looping, the last otherwise; from any other index it is the next one, `index + 1` |
| ListNavigation.NextIndexUp | packages/woby/src/hooks/useListNavigation.ts:249-258 | the result is a valid item; from the first item or from none it is the last when looping, the first otherwise; from any later index it is the previous one, `index - 1` |
| ListNavigation.DownUpRoundTrip | packages/woby/src/hooks/useListNavigation.ts:251-258 | with looping ArrowDown then ArrowUp (and the reverse) returns to the same item; without looping this holds away from the ends |
| ListNavigation.ReferenceOnKeyDown | packages/woby/src/hooks/useListNavigation.ts:209-235 | a main-orientation key is prevented exactly when `focusItemOnOpen` is `'auto'` and the list is open; the list opens with reason `list-navigation` exactly when closed and either that key with `openOnArrowKeyDown` or a cross-orientation open key was pressed; nothing else changes |
| ListNavigation.FloatingOnKeyDown | packages/woby/src/hooks/useListNavigation.ts:239-266 | only while enabled, open and with at least one present item: ArrowDown and ArrowUp are prevented and navigate to NextIndexDown/NextIndexUp of `activeIndex ?? -1`, Escape closes with reason `escape-key`; otherwise nothing happens |
| ListNavigation.ItemProps | packages/woby/src/hooks/useListNavigation.ts:269-274 | `role` is `option`; `aria-selected` is present exactly when `active` is truthy, and then holds `selected` |
| ListNavigation.Contract | packages/woby/src/hooks/useListNavigation.ts:205-276 | a disabled hook returns no props; an enabled one returns reference and floating handlers and an item getter |
| ListNavigation.CountPresent | packages/woby/src/hooks/useListNavigation.ts:245 | the number of non-null items is at most the length of the list, and 0 exactly when every item is null |
| Typeahead.FindFirst | packages/woby/src/hooks/useTypeahead.ts:111-115 | no result exactly when no label starts with the typed string (ignoring case); otherwise the result is the first label, in list order, that does |
| Typeahead.IndexOf | packages/woby/src/hooks/useTypeahead.ts:117 | -1 exactly when the label is absent; otherwise the first position holding it |
| Typeahead.GetMatchingIndex | packages/woby/src/hooks/useTypeahead.ts:104-118 | -1 or the position of a non-empty label; with the built-in matcher a found label matches the typed string, and when the ordered list draws from the list and the string is non-empty, -1 means exactly that nothing matches |
| Typeahead.RotateIsPermutation | packages/woby/src/hooks/useTypeahead.ts:178-181 | the search order is a permutation of the labels, for every start |
| Typeahead.RotateShifts | packages/woby/src/hooks/useTypeahead.ts:178-181 | a start k within the list rotates it: position i holds label (i + k) mod n |
| Typeahead.SearchStartCases | packages/woby/src/hooks/useTypeahead.ts:174-181 | an unset previous index and index 0 both start the search at the second label (the `|| 0` quirk); -1 starts it at the first |
| Typeahead.TypeaheadHook.constructor | packages/woby/src/hooks/useTypeahead.ts:66-85 | empty buffer, no match, no timer, and previous index `selectedIndex ?? activeIndex ?? -1` |
| Typeahead.TypeaheadHook.OnKeyDown | packages/woby/src/hooks/useTypeahead.ts:120-192 | the full new state: a stale unmatched buffer ends typing first; only a key of JavaScript length 1 (one UTF-16 code unit) without modifiers and not ignored is accepted; then typing is reported while open, a repeated first letter restarts the buffer from the last match, the reset timer is re-armed, and the match is reported or the buffer cleared |
| Typeahead.TypeaheadHook.TypeKey | packages/woby/src/hooks/useTypeahead.ts:146-191 | for an accepted key: typing is reported and the key prevented while open (except Space); a repeated single letter restarts the buffer and the search from the last match; the buffer gains the key; the reset timer is the new handle; the rotated search reports a match, or else a non-space key clears the buffer and ends typing |
| Typeahead.TypeaheadHook.ArmAndSearch | packages/woby/src/hooks/useTypeahead.ts:167-191 | the reset timer becomes the new handle; the match found in the list rotated past the previous index is reported and remembered, and a miss on a key other than Space empties the buffer; the previous index is untouched |
| Typeahead.TypeaheadHook.FireResetTimer | packages/woby/src/hooks/useTypeahead.ts:168-172 | the pending reset empties the buffer, moves the search start to the last match and ends typing; a stale timer does nothing |
| Typeahead.TypeaheadHook.OnKeyUp | packages/woby/src/hooks/useTypeahead.ts:200-204 | releasing Space, and only Space, ends typing |
| Typeahead.TypeaheadHook.ClearTimeoutIfSet | packages/woby/src/hooks/useTypeahead.ts:210-216 | only a positive timer id is cleared (and reset to -1); the buffer and indices are untouched |
| Typeahead.TypeaheadHook.Contract | packages/woby/src/hooks/useTypeahead.ts:194-207 | a disabled hook returns no props; an enabled one returns reference and floating handlers sharing `onKeyDown` |
| Hover.GetDelay | packages/woby/src/hooks/useHover.ts:10-32 | a known pointer that is not mouse-like gets delay 0; for any other pointer a number is the delay, a function's number result is the delay, an object (given or returned) gives its `open` or `close` field, and no option or an empty result gives no delay |
| Hover.DelayPointerIndependent | packages/woby/src/hooks/useHover.ts:10-32 | for a mouse, a pen or an unknown pointer the delay is the same as for no pointer type; a single number (direct or returned) is both the open and the close delay |
| Hover.TouchNeverWaits | packages/woby/src/hooks/useHover.ts:15-17 | a touch pointer never waits, whatever the option |
| Hover.ClearIfSet | packages/woby/src/hooks/useHover.ts:378-384 | a positive handle is cancelled and the cell reset to -1; a non-positive one changes nothing; no other timer is touched or added |
| Hover.HoverHook.constructor | packages/woby/src/hooks/useHover.ts:105-311 | the cells start as in the source; the reference listeners exist exactly when enabled on an element, the floating ones also need a floating element, the once-only move listener needs `move` |
| Hover.HoverHook.ScheduleTimer | packages/woby/src/hooks/useHover.ts:196-366 | a fresh positive handle is issued for the callback and nothing else changes |
| Hover.HoverHook.ClearTimeoutIfSet | packages/woby/src/hooks/useHover.ts:378-384 | the timeout cell and the timer table become ClearIfSet of them; every other cell is unchanged |
| Hover.HoverHook.ClearRestTimeoutIfSet | packages/woby/src/hooks/useHover.ts:378-384 | the same for the rest-timeout cell |
| Hover.HoverHook.RecordPointerType | packages/woby/src/hooks/useHover.ts:328-333 | only the pointer type changes |
| Hover.HoverHook.OnReferenceMouseEnter | packages/woby/src/hooks/useHover.ts:182-213 | cancels the pending timeout and unblocks moves; unless skipped (non-mouse under `mouseOnly`, or a rest delay without an open delay) it arms an open timer for a truthy open delay or opens a closed element at once with reason `hover` |
| Hover.HoverHook.EnterDecide | packages/woby/src/hooks/useHover.ts:185-211 | after the timeout is cancelled: nothing under `mouseOnly` with a pointer that is not mouse-like, or with a rest delay and no open delay; otherwise one open timer is scheduled for a truthy open delay, or a closed element opens at once with reason `hover` |
| Hover.HoverHook.OnReferenceFirstMove | packages/woby/src/hooks/useHover.ts:289-296 | the first move acts as a mouseenter and the once-only listener is gone |
| Hover.HoverHook.LeaveStart | packages/woby/src/hooks/useHover.ts:221-224 | a mouseleave first removes the `handleClose` handler and cancels the rest timer; nothing else changes |
| Hover.HoverHook.OnReferenceMouseLeaveAsWritten | packages/woby/src/hooks/useHover.ts:215-271 | as the source does it: cancels the rest timer; with `handleClose` it keeps `open`, cancels the open timer only while closed and installs the handler; otherwise it closes (unless touch left into the floating element) and leaves the open timer pending |
| Hover.HoverHook.OnReferenceMouseLeave | packages/woby/src/hooks/useHover.ts:215-271 | corrected: as written, except that closing on leave also cancels the pending timeout |
| Hover.HoverHook.SafePolygonClose | packages/woby/src/hooks/useHover.ts:236-245 | the handler is removed and the element closes with reason `safe-polygon` |
| Hover.HoverHook.OnFloatingMouseEnter | packages/woby/src/hooks/useHover.ts:273-275 | cancels the pending timeout and nothing else |
| Hover.HoverHook.OnFloatingMouseLeave | packages/woby/src/hooks/useHover.ts:126-281 | with a truthy close delay a close timer (reason `hover`) goes into the timeout cell without cancelling the previous one; without one nothing happens |
| Hover.HoverHook.HandleMouseMove | packages/woby/src/hooks/useHover.ts:335-342 | opens with reason `hover` exactly when moves are unblocked and the element is closed |
| Hover.HoverHook.OnMouseMove | packages/woby/src/hooks/useHover.ts:334-372 | ignored for a non-mouse under `mouseOnly`, while open, without a rest delay, or for a tremor while the rest timer is pending; otherwise the rest timer restarts, and touch runs the open check at once |
| Hover.HoverHook.RestartRest | packages/woby/src/hooks/useHover.ts:360-371 | a move that counts cancels the rest timer; a touch pointer then runs `handleMouseMove` at once, any other pointer arms a new rest timer |
| Hover.HoverHook.FireTimer | packages/woby/src/hooks/useHover.ts:133-369 | the fired callback leaves the table and runs once: the open timer opens a closed element, a close timer closes with its reason, the rest timer runs HandleMouseMove |
| Hover.HoverHook.Dispose | packages/woby/src/hooks/useHover.ts:315-324 | all listeners and the handler are removed; pending timers stay |
| Hover.HoverHook.Contract | packages/woby/src/hooks/useHover.ts:327-375 | a disabled hook returns no props; an enabled one returns reference handlers only |
| Hover.OpenTimerOutlivesLeaveAsWritten | packages/woby/src/hooks/useHover.ts:195-270 | as written: enter with an open delay, then leave before it elapses; the element is closed after the leave but open after the timer fires |
| Hover.OpenTimerCancelledByLeave | packages/woby/src/hooks/useHover.ts:195-270 | corrected, on the same input: closed after the leave and no timer pending |
| Focus.FocusVisibleCases | packages/woby/src/hooks/useFocus.ts:65-153 | the visibility check rejects exactly on Safari for macOS, with `visibleOnly`, an element target, no `relatedTarget`, no keyboard modality and a target that is not typeable |
| Focus.FocusHook.constructor | packages/woby/src/hooks/useFocus.ts:41-126 | focus unblocked, no timer, keyboard modality on; the window `blur` listener exists exactly when enabled with a reference, the modality listeners also need Safari for macOS |
| Focus.FocusHook.OnWindowBlur | packages/woby/src/hooks/useFocus.ts:98-107 | focus becomes blocked when the element is closed and the reference is the active HTML element; nothing else changes |
| Focus.FocusHook.OnWindowKeyDown | packages/woby/src/hooks/useFocus.ts:109-111 | keyboard modality on, nothing else changes |
| Focus.FocusHook.OnWindowPointerDown | packages/woby/src/hooks/useFocus.ts:113-115 | keyboard modality off, nothing else changes |
| Focus.FocusHook.OnMouseLeave | packages/woby/src/hooks/useFocus.ts:135-137 | focus unblocked, nothing else changes |
| Focus.FocusHook.OnFocus | packages/woby/src/hooks/useFocus.ts:138-159 | opens with reason `focus` exactly when focus is not blocked and the visibility check passes; otherwise nothing changes |
| Focus.FocusHook.OnBlur | packages/woby/src/hooks/useFocus.ts:160-207 | focus unblocked; the pending blur timer is replaced by a new one that remembers the `relatedTarget`, so exactly one is pending |
| Focus.FocusHook.FireBlurTimer | packages/woby/src/hooks/useFocus.ts:166-193 | no timer is left pending; the element stays as it is when focus left the page or is inside the floating or reference element, and otherwise closes with reason `focus` |
| Focus.FocusHook.Dispose | packages/woby/src/hooks/useFocus.ts:129-131 | the window listeners are removed; a pending blur timer stays |
| Focus.FocusHook.Contract | packages/woby/src/hooks/useFocus.ts:134-198 | a disabled hook returns no props; an enabled one returns reference handlers only |
| Focus.ReturnToTabStaysClosed | packages/woby/src/hooks/useFocus.ts:95-139 | leaving the tab with the closed reference focused blocks the focus of coming back; after a mouseleave focus opens again |
| Dismiss.NormalizeProp | packages/woby/src/hooks/useDismiss.ts:24-37 | a boolean applies to both kinds; otherwise `escapeKey` is on only when set to true, and `outsidePress` is off only when set to false |
| Dismiss.ClimbSteps | packages/woby/src/hooks/useDismiss.ts:185-193 | the climb never passes more parents than there are |
| Dismiss.ClimbCharacterised | packages/woby/src/hooks/useDismiss.ts:185-193 | the climb passes exactly the leading run of parents that are elements and not last traversable nodes, and ends on the last of them (or on the start when there is none) |
| Dismiss.TargetRootAncestor | packages/woby/src/hooks/useDismiss.ts:185-193 | the `while` loop computes RootAncestor: none for a non-element target, the target itself when it is a last traversable node, the end of the climb otherwise |
| Dismiss.NoFirstCharNoSubstring | packages/woby/src/hooks/useDismiss.ts:215-219 | a string without the first character of a pattern does not contain the pattern |
| Dismiss.ScrollReExamples | packages/woby/src/hooks/useDismiss.ts:215-219 | `/auto\|scroll/` accepts `auto`, `scroll` and `overlay auto` and rejects `hidden`, `clip` and the empty string |
| Dismiss.ClientAreaIsNotScrollbar | packages/woby/src/hooks/useDismiss.ts:211-249 | in a left-to-right layout a press inside the client area is never a scrollbar press, and neither is a press on content that cannot scroll |
| Dismiss.DismissedIff | packages/woby/src/hooks/useDismiss.ts:195-261 | a press dismisses exactly when it is not on an injected third-party element, not on a scrollbar and not within the floating or reference element |
| Dismiss.NoMarkersNoInjection | packages/woby/src/hooks/useDismiss.ts:197-198 | without inert markers the third-party check never applies |
| Dismiss.ScrollTargets | packages/woby/src/hooks/useDismiss.ts:327-330 | the visual viewport never gets a scroll listener, and every target is one of the ancestors |
| Dismiss.ScrollListeners | packages/woby/src/hooks/useDismiss.ts:332-344 | one scroll listener per target, in target order |
| Dismiss.RegisterScrollListeners | packages/woby/src/hooks/useDismiss.ts:333-344 | the `forEach` loop registers exactly ScrollListeners of the targets |
| Dismiss.ScrollListenersSnoc | packages/woby/src/hooks/useDismiss.ts:333-344 | registering one more target appends its listener |
| Dismiss.DismissHook.constructor | packages/woby/src/hooks/useDismiss.ts:114-124 | the options as given; nothing registered |
| Dismiss.DismissHook.DocumentListeners | packages/woby/src/hooks/useDismiss.ts:293-303 | the document listeners are never scroll listeners |
| Dismiss.DismissHook.EffectListeners | packages/woby/src/hooks/useDismiss.ts:287-344 | nothing unless enabled and open; then the Escape listener (with `escapeKey`, in its capture phase) and the press listener (with `outsidePress`) are registered, and the visual viewport never is |
| Dismiss.DismissHook.Teardown | packages/woby/src/hooks/useDismiss.ts:346-349 | every listener of the last run is removed from the registrations |
| Dismiss.DismissHook.RunEffect | packages/woby/src/hooks/useDismiss.ts:287-350 | the previous run is torn down and EffectListeners is registered and kept for the next teardown |
| Dismiss.DismissHook.Install | packages/woby/src/hooks/useDismiss.ts:291-344 | the listeners of a run join the registrations and become the teardown list |
| Dismiss.DismissHook.CloseOnEscapeKeyDown | packages/woby/src/hooks/useDismiss.ts:146-165 | closes with reason `escape-key` exactly when open, enabled, `escapeKey` on and the key is Escape; propagation is stopped then unless Escape bubbles |
| Dismiss.DismissHook.CloseOnPressOutside | packages/woby/src/hooks/useDismiss.ts:167-262 | the outcome is PressOutcomeOf (the checks in source order) and the element closes with reason `outside-press` exactly when it is Dismissed |
| Dismiss.DismissHook.OnAncestorScroll | packages/woby/src/hooks/useDismiss.ts:334-339 | closes with reason `ancestor-scroll` |
| Dismiss.DismissHook.Contract | packages/woby/src/hooks/useDismiss.ts:352-363 | a disabled hook returns no props; an enabled one returns empty reference props and floating handlers whose `onKeyDown` is the Escape handler |
| Dismiss.OpenThenClose | packages/woby/src/hooks/useDismiss.ts:287-350 | opening and re-running the effect, then closing and re-running it, leaves the registrations as they were |
| Transition.RunEnd | packages/woby/src/hooks/useTransition.ts:10 | the run of capitals starting at an offset ends before the first non-capital |
| Transition.MatchLength | packages/woby/src/hooks/useTransition.ts:10 | the match at a capital is the whole run when no lowercase letter follows it, the run without its last capital when one does, and the single capital of a one-letter run before a lowercase letter |
| Transition.KebabNoUpper | packages/woby/src/hooks/useTransition.ts:8-12 | the converted key holds no capital letter |
| Transition.KebabIdentity | packages/woby/src/hooks/useTransition.ts:8-12 | a key without capitals is returned unchanged |
| Transition.KebabStripsToLower | packages/woby/src/hooks/useTransition.ts:8-12 | removing the hyphens from the converted key gives the lower-cased key without its hyphens: only hyphens are inserted and only capitals change |
| Transition.KebabSkipsLowerRun | packages/woby/src/hooks/useTransition.ts:8-12 | a stretch without capitals is copied unchanged |
| Transition.CamelWord | packages/woby/src/hooks/useTransition.ts:8-12 | a single capital between lowercase words becomes `-` and the lowercase letter |
| Transition.Acronym | packages/woby/src/hooks/useTransition.ts:8-12 | a run of capitals that no lowercase letter follows becomes one hyphenated lowercase word |
| Transition.BackgroundColor | packages/woby/src/hooks/useTransition.ts:6-12 | `backgroundColor` becomes `background-color` and `opacity` is unchanged |
| Transition.JoinNoUpper | packages/woby/src/hooks/useTransition.ts:166-168 | joining capital-free names with a capital-free separator gives a capital-free string |
| Transition.Exec | packages/woby/src/hooks/useTransition.ts:14-19 | no option gives `undefined`, an object is returned as it is, and a function is called with the side and placement |
| Transition.Side | packages/woby/src/hooks/useTransition.ts:134 | the side is the prefix of the placement before its first `-`, or all of it |
| Transition.PhaseDuration | packages/woby/src/hooks/useTransition.ts:54-138 | 250 when no duration is given; a number applies as it is; an object gives its `open` or `close` field, or 0 when that is missing |
| Transition.NumberDurationBothPhases | packages/woby/src/hooks/useTransition.ts:56-138 | a single number gives the same duration to both phases |
| Transition.UseDelayUnmount | packages/woby/src/hooks/useTransition.ts:21-29 | the mounted flag is the `open` argument |
| Transition.StatusCell.constructor | packages/woby/src/hooks/useTransition.ts:59 | the status starts `unmounted` with no timer pending |
| Transition.StatusCell.Settle | packages/woby/src/hooks/useTransition.ts:62-79 | with a floating element open gives `initial` and arms a timer, closed gives `close`; without one an unmounted `close` becomes `unmounted` and any other status is kept |
| Transition.StatusCell.FireOpenTimer | packages/woby/src/hooks/useTransition.ts:73-75 | the pending timer sets the status to `open` |
| Transition.CallStatus | packages/woby/src/hooks/useTransition.ts:59-84 | one call's status is never `open`; it is `initial` exactly when open with a floating element and `close` exactly when closed with one |
| Transition.UseTransitionStatus | packages/woby/src/hooks/useTransition.ts:46-85 | returns `isMounted` equal to `open` and the status CallStatus of a fresh cell, with a timer pending exactly when it is `initial` |
| Transition.BlankStylesGet | packages/woby/src/hooks/useTransition.ts:160-163 | the blanked styles hold `''` exactly for the keys of the initial styles |
| Transition.BlankStylesUnique | packages/woby/src/hooks/useTransition.ts:160-163 | the blanked styles never repeat a key |
| Transition.UseTransitionStyles | packages/woby/src/hooks/useTransition.ts:117-192 | `isMounted` is `open` and the styles are StylesFor the status one call reads |
| Transition.TransitionPropertyNoUpper | packages/woby/src/hooks/useTransition.ts:166-181 | `transitionProperty` never holds a capital letter |
| Transition.PhaseStylesTransition | packages/woby/src/hooks/useTransition.ts:165-185 | unless the common or phase styles override them, `transitionProperty` lists the phase's keys kebab-cased and `transitionDuration` is the phase's duration in ms |
| Transition.OpenStylesBlankInitial | packages/woby/src/hooks/useTransition.ts:157-172 | without an `open` option every initial key reads `''` in the open phase |
| Transition.CloseStylesFallBackToInitial | packages/woby/src/hooks/useTransition.ts:175-186 | without a `close` option the close phase shows the initial styles |
| Transition.DefaultInitialOpacity | packages/woby/src/hooks/useTransition.ts:125-186 | with the default initial styles, opacity is 0 both before mounting and while closing |
| Role.AriaRole | packages/woby/src/hooks/useRole.ts:15-54 | `select` and `combobox` map to `listbox`, `label` to no role, and every other role to itself |
| Role.UseRole | packages/woby/src/hooks/useRole.ts:44-112 | a disabled hook returns no props; an enabled one returns the reference and floating objects and an item getter giving ItemProps |
| Role.DescribingReference | packages/woby/src/hooks/useRole.ts:59-63 | for a tooltip or a label the reference carries exactly one attribute, `aria-labelledby` for a label and `aria-describedby` otherwise, naming the floating element |
| Role.PopupReferenceGet | packages/woby/src/hooks/useRole.ts:64-73 | for every other role, reading any key of the reference props gives PopupAttribute |
| Role.PopupReference | packages/woby/src/hooks/useRole.ts:64-73 | for every other role: `aria-expanded` is `false`, `aria-haspopup` the ARIA role (`dialog` for an alert dialog), `aria-controls` the floating id, `role: combobox` exactly for a listbox, the id exactly for a menu, the autocomplete mode of selects and comboboxes, and no describing attribute |
| Role.FloatingAttributes | packages/woby/src/hooks/useRole.ts:76-84 | the floating element carries its id, a role exactly when the ARIA role is truthy (so none for a label), and `aria-labelledby` naming the reference only for a menu |
| Role.ItemAttributes | packages/woby/src/hooks/useRole.ts:86-110 | options of a select or a combobox carry `role: option` and, when active, the option id; a select's `aria-selected` is `active && selected`, a combobox's is `selected`; items of any other role get nothing |
| ClientPoint.CapturedOffset | packages/woby/src/hooks/useClientPoint.ts:49-55 | a captured offset is kept; otherwise one is captured exactly when the coordinate is truthy and its axis tracked, and it is the corner minus the coordinate |
| ClientPoint.RectOf | packages/woby/src/hooks/useClientPoint.ts:44-83 | the width is the base width only on the `y` axis and the height the base height only on the `x` axis; on the first call a tracked axis with a data coordinate reports that coordinate; every other coordinate is the base rectangle's less the captured offset (0 when none); `top`, `left`, `right` and `bottom` follow from the point and the size |
| ClientPoint.FirstCallPoint | packages/woby/src/hooks/useClientPoint.ts:49-66 | the first call reports the data's coordinate on each tracked axis that has one, and the base rectangle's otherwise |
| ClientPoint.AutoUpdateKeepsPoint | packages/woby/src/hooks/useClientPoint.ts:49-70 | with truthy coordinates, a later call on the same base rectangle returns exactly what the first call did |
| ClientPoint.ZeroCoordinateNotKept | packages/woby/src/hooks/useClientPoint.ts:49-70 | a coordinate of 0 captures no offset: the first call reports 0, the next the base rectangle's coordinate |
| ClientPoint.VirtualElement.constructor | packages/woby/src/hooks/useClientPoint.ts:14-29 | the context element and data as given; no offsets captured and no auto-update yet |
| ClientPoint.VirtualElement.CaptureOffsets | packages/woby/src/hooks/useClientPoint.ts:49-55 | each offset becomes CapturedOffset of the old one |
| ClientPoint.VirtualElement.GetBoundingClientRect | packages/woby/src/hooks/useClientPoint.ts:30-84 | the offsets are captured against the context element's rectangle (zeros without one), the result is RectOf with the old auto-update flag, and every later call is an auto-update |
| ClientPoint.ClientPointHook.constructor | packages/woby/src/hooks/useClientPoint.ts:127-138 | the options as given; no pointer type, no update and no listener yet |
| ClientPoint.ClientPointHook.SetReference | packages/woby/src/hooks/useClientPoint.ts:141-157 | the reference becomes a fresh virtual element at the coordinates, with the current pointer type and the old reference's context element, and one position update follows |
| ClientPoint.ClientPointHook.HandleReferenceEnterOrMove | packages/woby/src/hooks/useClientPoint.ts:159-164 | with an explicit coordinate nothing happens; otherwise the reference follows the cursor as by SetReference |
| ClientPoint.ClientPointHook.OnPointer | packages/woby/src/hooks/useClientPoint.ts:232-237 | the pointer type is recorded and nothing else changes |
| ClientPoint.ClientPointHook.RunEffect | packages/woby/src/hooks/useClientPoint.ts:174-214 | the window listener is added exactly when enabled, open, the open check holds (a floating element for a mouse or pen, open otherwise) and no coordinate is explicit |
| ClientPoint.ClientPointHook.OnWindowMouseMove | packages/woby/src/hooks/useClientPoint.ts:190-200 | outside the floating element the reference follows the cursor; inside it the listener is removed and nothing else changes |
| ClientPoint.ClientPointHook.Dispose | packages/woby/src/hooks/useClientPoint.ts:217-219 | the listener is removed |
| ClientPoint.ClientPointHook.Contract | packages/woby/src/hooks/useClientPoint.ts:231-242 | a disabled hook returns no props; an enabled one returns reference handlers only |
| ClientPoint.FollowCursor | packages/woby/src/hooks/useClientPoint.ts:5-164 | after a cursor move over the reference, the first rectangle is at the cursor and the next auto-update reports the same rectangle |
| Interactions.Sources | packages/woby/src/hooks/useInteractions.ts:31-39 | one source per hook, in list order (nothing for a missing hook or slot; a getter's result called with the user's props, or nothing without them), and the user's props last |
| Interactions.FnsInAreFunctions | packages/woby/src/hooks/useInteractions.ts:55-56 | only function values are collected from one source |
| Interactions.CollectedAreFunctions | packages/woby/src/hooks/useInteractions.ts:55-56 | only function values are collected across the sources |
| Interactions.EntriesHandler | packages/woby/src/hooks/useInteractions.ts:45-64 | within one source, an `on*` key's list grows by that source's functions, and the key then holds the chain of the whole list (unchanged when the source assigned no function) |
| Interactions.EntriesAttribute | packages/woby/src/hooks/useInteractions.ts:45-67 | within one source, an ordinary key takes the source's last value for it, if any |
| Interactions.EntriesReserved | packages/woby/src/hooks/useInteractions.ts:46-48 | within one source, an item's state keys are skipped |
| Interactions.SourcesHandler | packages/woby/src/hooks/useInteractions.ts:40-71 | across the sources, an `on*` key's list grows by every function assigned to it, in source order, and the key holds the chain of the list |
| Interactions.SourcesAttribute | packages/woby/src/hooks/useInteractions.ts:40-71 | across the sources, an ordinary key takes the last value assigned to it |
| Interactions.SourcesReserved | packages/woby/src/hooks/useInteractions.ts:40-71 | across the sources, an item's state keys are never assigned |
| Interactions.EntriesUnique | packages/woby/src/hooks/useInteractions.ts:45-68 | the accumulator never repeats a key within one source |
| Interactions.SourcesUnique | packages/woby/src/hooks/useInteractions.ts:40-71 | the accumulator never repeats a key across the sources |
| Interactions.HandlersChain | packages/woby/src/hooks/useInteractions.ts:25-71 | an `on*` key of the merged props holds one handler chaining every function any source assigned to it, in source order; only when none did does the value spread from the defaults and the user's props show through |
| Interactions.NonFunctionHandlerFromUser | packages/woby/src/hooks/useInteractions.ts:30-64 | a non-function value under an `on*` key comes from the user's props, and then no source assigned a function to that key |
| Interactions.DefaultsAreNotHandlers | packages/woby/src/hooks/useInteractions.ts:26-29 | the floating defaults assign no `on*` key |
| Interactions.AttributesLastWins | packages/woby/src/hooks/useInteractions.ts:25-71 | an ordinary key of the merged props holds its last assignment across the sources (so the user's props beat the hooks and later hooks beat earlier ones), or else the defaults' and user's spread value |
| Interactions.UserAttributeWins | packages/woby/src/hooks/useInteractions.ts:39-67 | the user's own value for an ordinary key always wins |
| Interactions.FloatingDefaultsKept | packages/woby/src/hooks/useInteractions.ts:26-29 | floating props carry `tabIndex: -1` and the focusable marker unless a source assigns those keys |
| Interactions.ItemStateKeysDropped | packages/woby/src/hooks/useInteractions.ts:19-48 | `active` and `selected` never reach an item's merged props |
| Interactions.LastOfNoneLast | packages/woby/src/hooks/useInteractions.ts:39 | when no source assigns a key, the user's props do not either |
| Interactions.MergeProps | packages/woby/src/hooks/useInteractions.ts:11-73 | the two nested loops compute MergeResult, whose keys are characterised by HandlersChain, AttributesLastWins and ItemStateKeysDropped |
| Interactions.MergeEntries | packages/woby/src/hooks/useInteractions.ts:45-68 | the loop over one source's entries leaves accumulator and handler lists equal to StepEntries of the entries |
| Interactions.InvokeMerged | packages/woby/src/hooks/useInteractions.ts:58-63 | a chained handler calls every function once, in order, and returns the first defined result, or `undefined` exactly when every call returned `undefined` |
| Interactions.GetReferenceProps | packages/woby/src/hooks/useInteractions.ts:100-101 | the merge for the reference element |
| Interactions.GetFloatingProps | packages/woby/src/hooks/useInteractions.ts:103-104 | the merge for the floating element |
| Interactions.GetItemProps | packages/woby/src/hooks/useInteractions.ts:106-107 | the merge for an item |
| Positioning.IsPositionedCases | packages/woby-dom/src/useFloating.ts:60-91 | the intended flag is false exactly when `open` is specified as `false`, is true when `open` is absent, and differs from the flag as written exactly for a plain `open: false` (which `useObservable` turns into `null`, see packages/woby-dom/src/utils/useObservable.ts:3-7) |
| Positioning.FullData | packages/woby-dom/src/useFloating.ts:85-92 | every field of the result is copied and `isPositioned` is the given flag |
| Positioning.Gate | packages/woby-dom/src/useFloating.ts:93-95 | while mounted the data becomes the full data; when not mounted, or when nothing differs, it is kept |
| Positioning.SameResultWritesOnce | packages/woby-dom/src/useFloating.ts:93-95 | passing the same result through the gate again writes nothing and changes nothing |
| Positioning.AfterOpenEffect | packages/woby-dom/src/useFloating.ts:101-105 | after the open effect a plain `open: false` never leaves the data positioned, and no other field changes |
| Positioning.ResolvedNeverPositionedWhenClosed | packages/woby-dom/src/useFloating.ts:84-105 | with the intended flag a written result carries its coordinates, is positioned exactly when `open` is not specified as `false`, leaves the open effect nothing to do, and is written once |
| Positioning.TransientPositionedAsWritten | packages/woby-dom/src/useFloating.ts:84-105 | as written, a result for a plain `open: false` is stored as positioned; the open effect then turns it into the intended data, and the next identical result writes again |
| Positioning.PositionBinding.constructor | packages/woby-dom/src/useFloating.ts:23-62 | the options as given; data at the origin with the given strategy and placement, empty middleware data, not positioned; mounted |
| Positioning.PositionBinding.SetElements | packages/woby-dom/src/useFloating.ts:54-55 | the element cells take the new values and nothing else changes |
| Positioning.PositionBinding.Update | packages/woby-dom/src/useFloating.ts:64-83 | a position is requested exactly when both elements are present; nothing else changes |
| Positioning.PositionBinding.Resolve | packages/woby-dom/src/useFloating.ts:84-96 | as written: the data becomes ResolvedAsWritten of the old data, so while mounted `isPositioned` is true unless `open` is an observable holding `false` (a plain `false` reads back as `null`), and a write is counted exactly when the gate lets the result through |
| Positioning.PositionBinding.ResolveIntended | packages/woby-dom/src/useFloating.ts:84-96 | corrected: the data becomes Resolved of the old data, so while mounted `isPositioned` is false exactly when `open` is specified as `false`; a write is counted exactly when the gate lets the result through |
| Positioning.PositionBinding.OpenEffect | packages/woby-dom/src/useFloating.ts:101-105 | the data becomes AfterOpenEffect of the old data, with one write exactly when a plain `open: false` finds it positioned |
| Positioning.PositionBinding.PositionEffect | packages/woby-dom/src/useFloating.ts:108-119 | with both elements, `whileElementsMounted` is called when given and a position is requested otherwise; without both nothing happens |
| Positioning.StylesGet | packages/woby-dom/src/useFloating.ts:121-150 | the styles' `position` is the strategy; `left` and `top` are 0 for a missing floating element or under `transform`, otherwise the rounded coordinates; `transform` is the translation only with a floating element under `transform`, and `willChange` only then on a high-density display |
| Positioning.TranslateRoundTrip | packages/woby-dom/src/useFloating.ts:140 | both numbers in `translate(xpx, ypx)` read back as the coordinates written |
| Positioning.ResolveAndStyle | packages/woby-dom/src/useFloating.ts:84-149 | after a result is written with `transform: false`, `left` and `top` are the rounded coordinates of the result, and as written the data is positioned unless `open` is an observable holding `false` |
| Positioning.ClosedRecomputeAsWritten | packages/woby-dom/src/useFloating.ts:84-105 | as written, with a plain `open: false` and data settled on a result, recomputing that result and running the open effect writes twice and leaves the data as it was |
| Positioning.ClosedRecomputeIntended | packages/woby-dom/src/useFloating.ts:84-105 | corrected, on the same state: the recomputation and the open effect write nothing |
| Positioning.UseFloating | packages/woby-dom/src/useFloating.ts:20-62 | placement defaults to `bottom`, strategy to `absolute` and `transform` to true; the initial data sits at the origin, not positioned, with empty middleware data |
| FloatingTree.FloatingNode.constructor | packages/woby/src/components/FloatingTree.ts:43-68 | a node record holds the id and parent id it was built with |
| FloatingTree.TreeStore.constructor | packages/woby/src/components/FloatingTree.ts:91 | a fresh tree has no nodes |
| FloatingTree.TreeStore.AddNode | packages/woby/src/components/FloatingTree.ts:93-95 | the node is appended and the earlier nodes keep their order |
| FloatingTree.TreeStore.RemoveNode | packages/woby/src/components/FloatingTree.ts:97-99 | every entry identical to the node is dropped and every other entry kept; the list is unchanged exactly when the node was absent |
| FloatingTree.RemovedCount | packages/woby/src/components/FloatingTree.ts:97-99 | removing a present node shortens the list |
| FloatingTree.Contexts.constructor | packages/woby/src/components/FloatingTree.ts:8-11 | both contexts start out `null` |
| FloatingTree.ParentNodeId | packages/woby/src/components/FloatingTree.ts:17-20 | there is a parent id exactly when the node in context has a non-empty id, and it is that id |
| FloatingTree.UseFloatingParentNodeId | packages/woby/src/components/FloatingTree.ts:17-20 | returns ParentNodeId of the node in context |
| FloatingTree.ChooseParent | packages/woby/src/components/FloatingTree.ts:39 | a non-empty custom parent id wins; an absent or empty one falls through to the context's parent |
| FloatingTree.UseFloatingNodeId | packages/woby/src/components/FloatingTree.ts:35-51 | returns the id; a fresh record with that id and ChooseParent's parent id joins the end of the tree exactly when the id is non-empty, and the tree is otherwise unchanged |
| FloatingTree.DisposeFloatingNodeId | packages/woby/src/components/FloatingTree.ts:45-47 | the registered record is removed from the tree in context |
| FloatingTree.ProvideNode | packages/woby/src/components/FloatingTree.ts:62-72 | the node context holds a fresh record of the id and of the enclosing node's ParentNodeId; the tree context is unchanged |
| FloatingTree.ProvideTree | packages/woby/src/components/FloatingTree.ts:88-113 | the tree context holds a fresh, empty store; the node context is unchanged |
| FloatingTree.RegisterThenDispose | packages/woby/src/components/FloatingTree.ts:41-48 | registering a node and disposing the registration leaves the tree's nodes as they were |
| FloatingTree.NestedNodeParent | packages/woby/src/components/FloatingTree.ts:35-72 | under a `FloatingNode` with a non-empty id, a nested registration's parent is that id unless a non-empty custom parent id is given, which then wins |
| MergeRefs.Cell.constructor | packages/woby/src/hooks/useMergeRefs.ts:8 | a cell holds the value it was built with |
| MergeRefs.UseMergeRefs | packages/woby/src/hooks/useMergeRefs.ts:10-14 | `null` exactly when every entry is `null` or `undefined`; otherwise a callback over the same list |
| MergeRefs.WriteOrderSpec | packages/woby/src/hooks/useMergeRefs.ts:15-24 | the callback writes exactly the observables and functions of the list, each once and in list order |
| MergeRefs.NullishNeverWritten | packages/woby/src/hooks/useMergeRefs.ts:16 | a `null` or `undefined` entry is never written |
| MergeRefs.Call | packages/woby/src/hooks/useMergeRefs.ts:14-25 | the loop writes the positions of WriteOrder and every observable of the list then holds the value |
| MergeRefs.ObservableAndCallback | packages/woby/src/hooks/useMergeRefs.ts:10-25 | for an observable, an `undefined` and a callback, the observable receives the element and positions 0 and 2 are written |

## Left out

- Event-listener wiring, document and window lookups, `contains`, `querySelectorAll` and `getComputedStyle` are
  not modelled. Their results are parameters or record fields: containment is a relation over node ids, and
  overflow, sizes and markers are fields. The registered listeners of the dismiss effect are kept as a multiset
  of abstract listener records.
- Timers: scheduling and real time are not modelled. A timer is a positive handle the caller supplies, and its
  firing is an explicit method that acts only while that handle is pending. Clearing a handle is modelled as the
  source does it.
- The reactive runtime (`$`, `$$`, `useEffect`, `useMemo`, `batch`) is replaced by fields and explicit effect
  methods. Effect re-runs happen where a caller invokes them. Reactivity-driven re-runs and re-render ordering
  are not modelled.
- Browser sniffing (`isMac`, `isSafari`, `isWebKit`) is a boolean parameter.
- `useId` is not modelled: the ids are parameters, because it draws on `Math.random` and a global counter.
- The positioning engine is out of the model. `computePosition` is external and asynchronous: a request is
  counted and its result is an abstract record. `deepEqual` is structural equality of the records. The
  `roundByDPR` rounding and the `getDPR() >= 1.5` test are parameters, because they are floating-point device
  queries. The middleware list (`latestMiddleware`) and the `platform` option are not modelled: they are passed
  to the engine untouched.
- Numbers:
  - coordinates, sizes, delays and indices are integers, and NaN and fractional values are not modelled;
  - `movementX² + movementY² < 2` is evaluated on integers;
  - lower-casing (`toLowerCase`, `toLocaleLowerCase`) is ASCII-only.
- `useFloatingTree`'s event emitter (`createEventEmitter`) is not modelled. No modelled hook uses it.
- Code that can never take effect is not modelled:
  - `isOpenEvent` and `isClickLikeOpenEvent` in the hover hook are constant false;
  - the `stickIfOpen` condition of the click hook is constant;
  - the dismiss hook's `outsidePress` function is never called;
  - `endedOrStartedInsideRef` and `isComposingRef` are never set;
  - the list navigation's tree and parent registration is nulled out;
  - `initialRef` of the client-point hook is never set, so `setReference` never returns early.
- `getOverflowAncestors` is a DOM walk and is not modelled. The scroll ancestors of the dismiss effect are given
  as sequences.
- packages/dom/src/platform/getOffsetParent.ts and packages/woby-dom/src/arrow.ts are not part of this model.
  Neither is the re-export glue.
- The values of `ACTIVE_KEY` (`"active"`), `SELECTED_KEY` (`"selected"`) and `FOCUSABLE_ATTRIBUTE`
  (`"data-floating-ui-focusable"`) come from upstream Floating UI's constants file. The port's
  `utils/constants.ts` is not part of this model.
- Typeahead.AllowRapidSuccessionOfFirstLetter: compares the first two characters of a label, not its first two
  UTF-16 code units. For a label that starts with a character outside the Basic Multilingual Plane, the source
  compares the two halves of one surrogate pair instead. The key-length test does count UTF-16 code units
  (`Common.Utf16Length`), so an emoji key is ignored as in the source. Every other string operation works on
  characters.
- MergeRefs.Call: a callback ref is recorded as written, by its position, rather than called. The model has no
  function values to call.
- Positioning.PositionBinding.FloatingStyles: the coordinates are rounded by the `round` parameter, not by the
  device-pixel ratio.

## Findings

| source | as written | input that shows it | evidently intended | confidence | as-written member | corrected member |
|---|---|---|---|---|---|---|
| packages/woby-dom/src/useFloating.ts:60-105 | `isPositioned: $$(openRef) !== false`. `openRef` comes from `useObservable(open)`, which stores `open \|\| null` (packages/woby-dom/src/utils/useObservable.ts:6), so a plain `open: false` reads back as `null`. A result is then stored as positioned, and the open effect rewrites it to `false`. The next identical result differs again, so the equality gate never settles: every recomputation while closed writes the data twice. | `open: false` passed as a plain boolean, with both elements mounted and `computePosition` resolving | as the comment at lines 87-90 says, a result computed while `open` is specified as `false` is never marked positioned, and an identical result writes nothing | high (not executed) | Positioning.TransientPositionedAsWritten | Positioning.ResolvedNeverPositionedWhenClosed |
| packages/woby/src/hooks/useHover.ts:195-270 | A mouseleave without `handleClose` closes at once, but it leaves the pending open-delay timer armed. The timer then fires after the pointer has left and opens the element again. | `delay: 500`: mouseenter, then mouseleave within 500 ms | leaving the reference cancels a pending open, as the upstream `closeWithDelay` does by clearing the timer first | medium (not executed) | Hover.OpenTimerOutlivesLeaveAsWritten | Hover.OpenTimerCancelledByLeave |
