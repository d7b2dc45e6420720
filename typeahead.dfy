/** `useTypeahead`: typed characters accumulate in a buffer, and the first
    label (searching from just after the previous match, wrapping around)
    that starts with the buffer, ignoring case, is reported as a match.  The
    buffer is cleared by a timer `resetMs` after the last key. */
module Typeahead {
  import opened Common
  import opened Props

  /** `findMatch`: the built-in prefix search, or a caller-supplied function
      from the ordered labels and the buffer to the matching label
      (`None` standing for `null`/`undefined`). */
  datatype FindMatch = DefaultMatch | CustomMatch(f: (seq<Option<string>>, string) -> Option<string>)

  /** `text?.toLocaleLowerCase().indexOf(string.toLocaleLowerCase()) === 0`:
      the label starts with the typed string, ignoring case. */
  predicate Matches(text: Option<string>, typed: string) {
    text.Some? && Lower(typed) <= Lower(text.value)
  }

  /** `orderedList.find(...)` with `Matches`. */
  function FindFirst(ordered: seq<Option<string>>, typed: string): (r: Option<string>)
    ensures r.None? <==> forall i :: 0 <= i < |ordered| ==> !Matches(ordered[i], typed)
    ensures r.Some? ==>
      exists i :: (0 <= i < |ordered| && ordered[i] == r && Matches(ordered[i], typed) &&
        (forall j :: 0 <= j < i ==> !Matches(ordered[j], typed)))
  {
    if ordered == [] then None
    else if Matches(ordered[0], typed) then ordered[0]
    else
      var r := FindFirst(ordered[1..], typed);
      assert r.Some? ==>
        exists i :: (1 <= i < |ordered| && ordered[i] == r && Matches(ordered[i], typed) &&
          (forall j :: 0 <= j < i ==> !Matches(ordered[j], typed))) by {
        if r.Some? {
          var i :| 0 <= i < |ordered[1..]| && ordered[1..][i] == r && Matches(ordered[1..][i], typed) &&
            (forall j :: 0 <= j < i ==> !Matches(ordered[1..][j], typed));
          assert ordered[i + 1] == r;
          forall j | 0 <= j < i + 1 ensures !Matches(ordered[j], typed) {
            if j > 0 { assert ordered[j] == ordered[1..][j - 1]; }
          }
        }
      }
      r
  }

  /** `list.indexOf(str)`: the first position holding `str`, or -1. */
  function IndexOf(list: seq<Option<string>>, str: string): (r: int)
    ensures -1 <= r < |list|
    ensures r == -1 <==> Some(str) !in list
    ensures r >= 0 ==> list[r] == Some(str) && Some(str) !in list[..r]
  {
    if list == [] then -1
    else if list[0] == Some(str) then 0
    else
      var r := IndexOf(list[1..], str);
      assert r >= 0 ==> list[..r + 1] == [list[0]] + list[1..][..r];
      if r == -1 then -1 else r + 1
  }

  /** `getMatchingIndex(list, orderedList, string)`: the position in `list`
      of the label the matcher picks from `orderedList`, or -1 when it picks
      none or an empty label. */
  function GetMatchingIndex(findMatch: FindMatch, list: seq<Option<string>>, ordered: seq<Option<string>>, typed: string): (r: int)
    ensures r == -1 || (0 <= r < |list| && list[r].Some? && list[r].value != "")
    ensures findMatch.DefaultMatch? && r != -1 ==> Matches(list[r], typed)
    ensures findMatch.DefaultMatch? && typed != "" && (forall i :: 0 <= i < |ordered| ==> ordered[i] in list) ==>
      (r == -1 <==> forall i :: 0 <= i < |ordered| ==> !Matches(ordered[i], typed))
  {
    var str := match findMatch
      case DefaultMatch => FindFirst(ordered, typed)
      case CustomMatch(f) => f(ordered, typed);
    if str.Some? && str.value != "" then IndexOf(list, str.value) else -1
  }

  /** The index `slice` starts at or ends before: a negative argument counts
      from the end, and the result is clamped to the list. */
  function SliceIndex(k: int, len: nat): (r: nat)
    ensures r <= len
  {
    if k < 0 then (if len + k < 0 then 0 else len + k) else (if k > len then len else k)
  }

  /** `[...list.slice(k), ...list.slice(0, k)]`. */
  function Rotate<T>(list: seq<T>, k: int): seq<T> {
    list[SliceIndex(k, |list|)..] + list[..SliceIndex(k, |list|)]
  }

  /** The search always starts one position after the previous match:
      `(prevIndex || 0) + 1`. */
  function SearchStart(prevIndex: Option<int>): int {
    (if prevIndex.None? || prevIndex.value == 0 then 0 else prevIndex.value) + 1
  }

  /** The rotated list holds the same labels, each as often as before, for
      every start; a start within the list is a rotation by that amount. */
  lemma RotateIsPermutation<T>(list: seq<T>, k: int)
    ensures |Rotate(list, k)| == |list|
    ensures multiset(Rotate(list, k)) == multiset(list)
    ensures forall x :: x in Rotate(list, k) <==> x in list
  {
    var n := SliceIndex(k, |list|);
    assert list == list[..n] + list[n..];
    assert multiset(Rotate(list, k)) == multiset(list[n..]) + multiset(list[..n]);
    forall x ensures x in Rotate(list, k) <==> x in list {
      assert x in Rotate(list, k) <==> x in multiset(Rotate(list, k));
      assert x in list <==> x in multiset(list);
    }
  }

  /** A start within the list rotates it by that many positions. */
  lemma RotateShifts<T>(list: seq<T>, k: int, i: int)
    requires 0 <= k <= |list| && 0 <= i < |list|
    ensures Rotate(list, k)[i] == list[(i + k) % |list|]
  {
    var n := |list|;
    assert Rotate(list, k) == list[k..] + list[..k];
    if i < n - k {
      ModBelow(i + k, n);
      assert (list[k..] + list[..k])[i] == list[k..][i];
    } else {
      ModWrapOnce(i + k, n);
      assert (list[k..] + list[..k])[i] == list[..k][i - (n - k)];
    }
  }

  lemma ModBelow(x: int, n: int)
    requires 0 <= x < n
    ensures x % n == x
  {
  }

  lemma ModWrapOnce(x: int, n: int)
    requires 0 < n <= x < 2 * n
    ensures x % n == x - n
  {
  }

  /** An unset previous index and index 0 both start the search at the second
      label; -1 starts it at the first. */
  lemma SearchStartCases<T>(list: seq<T>)
    requires |list| >= 1
    ensures Rotate(list, SearchStart(None)) == list[1..] + list[..1]
    ensures Rotate(list, SearchStart(Some(0))) == list[1..] + list[..1]
    ensures Rotate(list, SearchStart(Some(-1))) == list
  {
    assert list[0..] == list && list[..0] == [];
  }

  /** Cycling through labels that share a first letter is allowed unless some
      label starts with the same letter twice ("llama", "Aaron"). */
  predicate AllowRapidSuccessionOfFirstLetter(list: seq<Option<string>>) {
    forall i :: 0 <= i < |list| ==>
      (list[i].Some? && list[i].value != "" && |list[i].value| >= 2 ==>
        LowerChar(list[i].value[0]) != LowerChar(list[i].value[1]))
  }

  /** The hook.  `listRef` is the list of item labels the hook was given
      (`null` entries for items without one). */
  class TypeaheadHook {
    const ctx: FloatingContext
    const enabled: bool
    const listRef: Option<seq<Option<string>>>
    const findMatch: FindMatch
    const resetMs: int
    const ignoreKeys: seq<string>

    var timeoutId: int
    var buffer: string
    var prevIndex: Option<int>
    var matchIndex: Option<int>
    /** Handle of the pending reset timer, if one is pending. */
    var resetTimer: Option<int>

    /** Without a list nothing is ever typed, and the pending reset timer is
        the one `timeoutId` holds. */
    ghost predicate Valid()
      reads this
    {
      (listRef.None? ==> buffer == "") &&
      (resetTimer.Some? ==> resetTimer.value == timeoutId && timeoutId > 0)
    }

    /** `prevIndexRef` starts at `selectedIndex ?? activeIndex ?? -1`. */
    constructor (ctx: FloatingContext, enabled: bool, listRef: Option<seq<Option<string>>>, findMatch: FindMatch,
                 resetMs: int, ignoreKeys: seq<string>, selectedIndex: Option<int>, activeIndex: Option<int>)
      ensures Valid()
      ensures this.ctx == ctx && this.enabled == enabled && this.listRef == listRef
      ensures this.findMatch == findMatch && this.resetMs == resetMs && this.ignoreKeys == ignoreKeys
      ensures timeoutId == -1 && buffer == "" && matchIndex == None && resetTimer == None
      ensures prevIndex == Some(if selectedIndex.Some? then selectedIndex.value
                                else if activeIndex.Some? then activeIndex.value else -1)
    {
      this.ctx := ctx;
      this.enabled := enabled;
      this.listRef := listRef;
      this.findMatch := findMatch;
      this.resetMs := resetMs;
      this.ignoreKeys := ignoreKeys;
      timeoutId := -1;
      buffer := "";
      prevIndex := Some(if selectedIndex.Some? then selectedIndex.value
                        else if activeIndex.Some? then activeIndex.value else -1);
      matchIndex := None;
      resetTimer := None;
    }

    /** `onKeyDown`.  `handle` is the id the host gives the new reset timer.
        Returns whether the event was prevented, the values passed to
        `onTypingChange` in order, and the index passed to `onMatch`. */
    method OnKeyDown(ev: KeyEvent, handle: int) returns (prevented: bool, typing: seq<bool>, matched: Option<int>)
      requires Valid() && handle > 0
      modifies this
      ensures Valid()
      ensures var head := old(buffer) != "" && old(buffer)[0] != ' ';
        var headMiss := head && GetMatchingIndex(findMatch, listRef.value, listRef.value, old(buffer)) == -1;
        var accepted := listRef.Some? && ev.key !in ignoreKeys && Utf16Length(ev.key) == 1 &&
                        !ev.ctrlKey && !ev.metaKey && !ev.altKey;
        if !accepted then
          && prevented == (head && !headMiss && ev.key == " ")
          && typing == (if headMiss then [false] else [])
          && matched == None
          && buffer == old(buffer) && prevIndex == old(prevIndex) && matchIndex == old(matchIndex)
          && timeoutId == old(timeoutId) && resetTimer == old(resetTimer)
        else
          var list := listRef.value;
          var cycle := AllowRapidSuccessionOfFirstLetter(list) && old(buffer) == ev.key;
          var typed := (if cycle then "" else old(buffer)) + ev.key;
          var from := if cycle then old(matchIndex) else old(prevIndex);
          var index := GetMatchingIndex(findMatch, list, Rotate(list, SearchStart(from)), typed);
          var typingOpen := ctx.open && ev.key != " ";
          && prevented == ((head && !headMiss && ev.key == " ") || typingOpen)
          && typing == (if headMiss then [false] else []) + (if typingOpen then [true] else []) +
                       (if index == -1 && ev.key != " " then [false] else [])
          && matched == (if index != -1 then Some(index) else None)
          && buffer == (if index == -1 && ev.key != " " then "" else typed)
          && prevIndex == from
          && matchIndex == (if index != -1 then Some(index) else old(matchIndex))
          && timeoutId == handle && resetTimer == Some(handle)
    {
      prevented := false;
      typing := [];
      matched := None;
      if buffer != "" && buffer[0] != ' ' {
        if GetMatchingIndex(findMatch, listRef.value, listRef.value, buffer) == -1 {
          typing := typing + [false];
        } else if ev.key == " " {
          prevented := true;
        }
      }
      if listRef.None? || ev.key in ignoreKeys || Utf16Length(ev.key) != 1 || ev.ctrlKey || ev.metaKey || ev.altKey {
        return;
      }
      var typedPrevented, typedTyping;
      typedPrevented, typedTyping, matched := TypeKey(ev.key, handle);
      prevented := prevented || typedPrevented;
      typing := typing + typedTyping;
    }

    /** The part of `onKeyDown` after the key is accepted: the buffer takes
        the key (after the rapid-succession reset), the reset timer is
        re-armed, and the rotated list is searched. */
    method TypeKey(key: string, handle: int) returns (prevented: bool, typing: seq<bool>, matched: Option<int>)
      requires Valid() && handle > 0 && listRef.Some?
      modifies this
      ensures Valid()
      ensures var list := listRef.value;
        var cycle := AllowRapidSuccessionOfFirstLetter(list) && old(buffer) == key;
        var typed := (if cycle then "" else old(buffer)) + key;
        var from := if cycle then old(matchIndex) else old(prevIndex);
        var index := GetMatchingIndex(findMatch, list, Rotate(list, SearchStart(from)), typed);
        var typingOpen := ctx.open && key != " ";
        && prevented == typingOpen
        && typing == (if typingOpen then [true] else []) + (if index == -1 && key != " " then [false] else [])
        && matched == (if index != -1 then Some(index) else None)
        && buffer == (if index == -1 && key != " " then "" else typed)
        && prevIndex == from
        && matchIndex == (if index != -1 then Some(index) else old(matchIndex))
        && timeoutId == handle && resetTimer == Some(handle)
    {
      prevented := false;
      typing := [];
      matched := None;
      var list := listRef.value;
      if ctx.open && key != " " {
        prevented := true;
        typing := typing + [true];
      }
      if AllowRapidSuccessionOfFirstLetter(list) && buffer == key {
        buffer := "";
        prevIndex := matchIndex;
      }
      buffer := buffer + key;
      var missed;
      missed, matched := ArmAndSearch(key, handle);
      if missed {
        typing := typing + [false];
      }
    }

    /** The second half of a typed key: the reset timer is re-armed with
        `handle` and the buffer is searched for from the rotated start; a
        miss on a key other than space empties the buffer. */
    method ArmAndSearch(key: string, handle: int) returns (missed: bool, matched: Option<int>)
      requires Valid() && handle > 0 && listRef.Some?
      modifies this
      ensures Valid()
      ensures var list := listRef.value;
        var index := GetMatchingIndex(findMatch, list, Rotate(list, SearchStart(old(prevIndex))), old(buffer));
        && matched == (if index != -1 then Some(index) else None)
        && missed == (index == -1 && key != " ")
        && buffer == (if missed then "" else old(buffer))
        && prevIndex == old(prevIndex)
        && matchIndex == (if index != -1 then Some(index) else old(matchIndex))
        && timeoutId == handle && resetTimer == Some(handle)
    {
      var list := listRef.value;
      ClearTimeoutIfSet();
      timeoutId := handle;
      resetTimer := Some(handle);
      var index := GetMatchingIndex(findMatch, list, Rotate(list, SearchStart(prevIndex)), buffer);
      missed := false;
      matched := None;
      if index != -1 {
        matched := Some(index);
        matchIndex := Some(index);
      } else if key != " " {
        buffer := "";
        missed := true;
      }
    }

    /** The reset timer's callback: the buffer is emptied, the next search
        starts after the last match, and typing ends.  A timer that is no
        longer pending does nothing. */
    method FireResetTimer(h: int) returns (typing: seq<bool>)
      requires Valid()
      modifies this
      ensures Valid()
      ensures if old(resetTimer) == Some(h) then
          buffer == "" && prevIndex == old(matchIndex) && typing == [false] && resetTimer == None
        else
          buffer == old(buffer) && prevIndex == old(prevIndex) && typing == [] && resetTimer == old(resetTimer)
      ensures matchIndex == old(matchIndex) && timeoutId == old(timeoutId)
    {
      typing := [];
      if resetTimer == Some(h) {
        resetTimer := None;
        buffer := "";
        prevIndex := matchIndex;
        typing := [false];
      }
    }

    /** The floating element's `onKeyUp`: releasing Space ends typing. */
    method OnKeyUp(ev: KeyEvent) returns (typing: seq<bool>)
      ensures typing == if ev.key == " " then [false] else []
    {
      typing := if ev.key == " " then [false] else [];
    }

    /** `clearTimeoutIfSet(timeoutIdRef)`: only a positive id is cleared. */
    method ClearTimeoutIfSet()
      requires Valid()
      modifies this
      ensures if old(timeoutId) > 0 then timeoutId == -1 && resetTimer == None
              else timeoutId == old(timeoutId) && resetTimer == old(resetTimer)
      ensures buffer == old(buffer) && prevIndex == old(prevIndex) && matchIndex == old(matchIndex)
    {
      if timeoutId > 0 {
        resetTimer := None;
        timeoutId := -1;
      }
    }

    /** `enabled ? { reference, floating } : {}`. */
    function Contract(): (r: ElementProps)
      ensures !enabled ==> r == NoElementProps
      ensures enabled ==> r.reference.Props? && r.floating.Props? && r.item.NoProps?
    {
      HookProps(enabled,
        Props([("onKeyDown", Fn(KeyDownHandler))]),
        Props([("onKeyDown", Fn(KeyDownHandler)), ("onKeyUp", Fn(FloatingKeyUpHandler))]),
        NoProps)
    }
  }

  /** Handlers of the hook, by identity: both elements share `onKeyDown`. */
  const KeyDownHandler: nat := 200
  const FloatingKeyUpHandler: nat := 201
}
