/** `useTransitionStatus` and `useTransitionStyles`: the mount status of the
    floating element and the inline styles that animate it, together with
    the conversion of style keys to CSS property names. */
module Transition {
  import opened Common
  import opened Props

  // ---------------------------------------------------------------------
  // camelCaseToKebabCase: `str.replace(/[A-Z]+(?![a-z])|[A-Z]/g, ...)`
  // ---------------------------------------------------------------------

  predicate NoUpper(s: string) {
    forall k :: 0 <= k < |s| ==> !IsUpper(s[k])
  }

  /** The end of the run of capitals that starts at `i`. */
  function RunEnd(s: string, i: nat): (j: nat)
    requires i <= |s|
    ensures i <= j <= |s|
    ensures forall k :: i <= k < j ==> IsUpper(s[k])
    ensures j == |s| || !IsUpper(s[j])
    decreases |s| - i
  {
    if i < |s| && IsUpper(s[i]) then RunEnd(s, i + 1) else i
  }

  /** The length of the regular expression's match at a capital `s[i]`.  The
      greedy `[A-Z]+` backtracks until the negative lookahead `(?![a-z])`
      holds: the whole run when no lowercase letter follows it, the run
      without its last capital when one does; a single capital followed by a
      lowercase letter is matched by the second alternative `[A-Z]`. */
  function MatchLength(s: string, i: nat): (n: nat)
    requires i < |s| && IsUpper(s[i])
    ensures 1 <= n <= |s| - i
    ensures forall k :: i <= k < i + n ==> IsUpper(s[k])
    ensures var j := RunEnd(s, i);
      || (n == j - i && (j == |s| || !IsLowerAlpha(s[j])))
      || (n == j - i - 1 && j < |s| && IsLowerAlpha(s[j]))
      || (n == 1 && j == i + 1 && j < |s| && IsLowerAlpha(s[j]))
  {
    var j := RunEnd(s, i);
    if j < |s| && IsLowerAlpha(s[j]) && j - i > 1 then j - i - 1 else j - i
  }

  /** The replacement from offset `i` on: characters other than capitals are
      kept; each match is lower-cased and, unless it starts at offset 0,
      preceded by `-`. */
  function KebabFrom(s: string, i: nat): string
    requires i <= |s|
    decreases |s| - i
  {
    if i == |s| then ""
    else if !IsUpper(s[i]) then [s[i]] + KebabFrom(s, i + 1)
    else
      var n := MatchLength(s, i);
      (if i > 0 then "-" else "") + Lower(s[i..i + n]) + KebabFrom(s, i + n)
  }

  /** `camelCaseToKebabCase`. */
  function CamelCaseToKebabCase(s: string): string {
    KebabFrom(s, 0)
  }

  lemma LowerNoUpper(s: string)
    ensures NoUpper(Lower(s))
  {
  }

  lemma LowerAppend(a: string, b: string)
    ensures Lower(a + b) == Lower(a) + Lower(b)
  {
  }

  lemma LowerUnchanged(s: string)
    requires NoUpper(s)
    ensures Lower(s) == s
  {
  }

  /** The output of the conversion holds no capital letter. */
  lemma {:induction false} KebabNoUpper(s: string, i: nat)
    requires i <= |s|
    ensures NoUpper(KebabFrom(s, i))
    decreases |s| - i
  {
    if i < |s| {
      if !IsUpper(s[i]) {
        KebabNoUpper(s, i + 1);
      } else {
        var n := MatchLength(s, i);
        KebabNoUpper(s, i + n);
        LowerNoUpper(s[i..i + n]);
      }
    }
  }

  /** A string without capitals is returned unchanged. */
  lemma {:induction false} KebabIdentity(s: string, i: nat)
    requires i <= |s|
    requires forall k :: i <= k < |s| ==> !IsUpper(s[k])
    ensures KebabFrom(s, i) == s[i..]
    decreases |s| - i
  {
    if i < |s| {
      KebabIdentity(s, i + 1);
      assert s[i..] == [s[i]] + s[i + 1..];
    }
  }

  /** Lower-casing a suffix is lower-casing its two halves. */
  lemma LowerSplit(s: string, i: nat, j: nat)
    requires i <= j <= |s|
    ensures Lower(s[i..]) == Lower(s[i..j]) + Lower(s[j..])
  {
    assert s[i..] == s[i..j] + s[j..];
    LowerAppend(s[i..j], s[j..]);
  }

  /** One step of the hyphen-stripping argument: a prefix that is empty or
      a single `-` vanishes, and equal tails stay equal. */
  lemma StripStep(pre: string, mid: string, rest: string, rest': string)
    requires pre == "" || pre == "-"
    requires Without(rest, '-') == Without(rest', '-')
    ensures Without(pre + mid + rest, '-') == Without(mid + rest', '-')
  {
    var w: string := Without(pre, '-');
    assert w == [] by {
      if pre == "-" {
        assert pre[..0] == [];
      }
    }
    WithoutAppend(pre + mid, rest, '-');
    WithoutAppend(pre, mid, '-');
    WithoutAppend(mid, rest', '-');
    calc {
      Without(pre + mid + rest, '-');
      Without(pre + mid, '-') + Without(rest, '-');
      w + Without(mid, '-') + Without(rest', '-');
      { assert w + Without(mid, '-') == Without(mid, '-'); }
      Without(mid, '-') + Without(rest', '-');
      Without(mid + rest', '-');
    }
  }

  /** One step of the conversion: an optional `-`, then the lower-cased
      token (a single character when it is not a capital), then the rest. */
  lemma KebabStep(s: string, i: nat) returns (n: nat, pre: string)
    requires i < |s|
    ensures 1 <= n <= |s| - i && (pre == "" || pre == "-")
    ensures KebabFrom(s, i) == pre + Lower(s[i..i + n]) + KebabFrom(s, i + n)
  {
    if IsUpper(s[i]) {
      n := MatchLength(s, i);
      pre := if i > 0 then "-" else "";
    } else {
      n, pre := 1, "";
      assert Lower(s[i..i + 1]) == [s[i]];
    }
  }

  /** Removing the inserted hyphens gives back the lower-cased input (with
      its own hyphens removed as well): the conversion only lower-cases and
      inserts `-`. */
  lemma {:induction false} KebabStripsToLower(s: string, i: nat)
    requires i <= |s|
    ensures Without(KebabFrom(s, i), '-') == Without(Lower(s[i..]), '-')
    decreases |s| - i
  {
    if i < |s| {
      var n, pre := KebabStep(s, i);
      KebabStripsToLower(s, i + n);
      LowerSplit(s, i, i + n);
      StripCombine(KebabFrom(s, i), pre, Lower(s[i..i + n]), KebabFrom(s, i + n),
                   Lower(s[i + n..]), Lower(s[i..]));
    }
  }

  /** StripStep with every string named, so that the induction step above
      needs no unfolding of the conversion. */
  lemma StripCombine(k: string, pre: string, token: string, rest: string, tail: string, whole: string)
    requires pre == "" || pre == "-"
    requires k == pre + token + rest && whole == token + tail
    requires Without(rest, '-') == Without(tail, '-')
    ensures Without(k, '-') == Without(whole, '-')
  {
    StripStep(pre, token, rest, tail);
  }

  /** A stretch without capitals is copied as it is. */
  lemma {:induction false} KebabSkipsLowerRun(s: string, i: nat, j: nat)
    requires i <= j <= |s|
    requires forall k :: i <= k < j ==> !IsUpper(s[k])
    ensures KebabFrom(s, i) == s[i..j] + KebabFrom(s, j)
    decreases j - i
  {
    if i < j {
      KebabSkipsLowerRun(s, i + 1, j);
      assert KebabFrom(s, i) == [s[i]] + KebabFrom(s, i + 1);
      assert s[i..j] == [s[i]] + s[i + 1..j];
    }
  }

  /** One hump: a single capital after a lowercase word and before another
      becomes `-` and its lowercase letter. */
  lemma CamelWord(a: string, c: char, b: string)
    requires |a| > 0 && NoUpper(a) && NoUpper(b)
    requires IsUpper(c) && |b| > 0 && IsLowerAlpha(b[0])
    ensures CamelCaseToKebabCase(a + [c] + b) == a + "-" + [LowerChar(c)] + b
  {
    var s := a + [c] + b;
    var i := |a|;
    ThreeParts(a, [c], b);
    assert s[i] == c by { assert s[|a| + 0] == [c][0]; }
    assert s[i + 1] == b[0] by { assert s[|a| + |[c]| + 0] == b[0]; }
    RunEndOfRun(s, i, i + 1);
    assert MatchLength(s, i) == 1;
    TokenAt(s, i, i + 1);
    assert Lower([c]) == [LowerChar(c)];
  }

  /** An acronym: a run of capitals that no lowercase letter follows is one
      token, lower-cased as a whole after a single `-`. */
  lemma Acronym(a: string, run: string, b: string)
    requires |a| > 0 && NoUpper(a) && NoUpper(b)
    requires |run| > 0 && forall k :: 0 <= k < |run| ==> IsUpper(run[k])
    requires b == [] || !IsLowerAlpha(b[0])
    ensures CamelCaseToKebabCase(a + run + b) == a + "-" + Lower(run) + b
  {
    var s := a + run + b;
    var i, j := |a|, |a| + |run|;
    ThreeParts(a, run, b);
    assert b != [] ==> s[j] == b[0] by {
      if b != [] { assert s[|a| + |run| + 0] == b[0]; }
    }
    assert s[i] == run[0] by { assert s[|a| + 0] == run[0]; }
    RunEndOfRun(s, i, j);
    assert MatchLength(s, i) == j - i;
    TokenAt(s, i, j);
  }

  /** The conversion of a string with one token: a stretch without
      capitals, the match starting at offset `i`, then no capital again. */
  lemma TokenAt(s: string, i: nat, j: nat)
    requires 0 < i < |s| && IsUpper(s[i]) && j == i + MatchLength(s, i)
    requires forall k :: 0 <= k < i ==> !IsUpper(s[k])
    requires forall k :: j <= k < |s| ==> !IsUpper(s[k])
    ensures KebabFrom(s, 0) == s[0..i] + "-" + Lower(s[i..j]) + s[j..]
  {
    KebabSkipsLowerRun(s, 0, i);
    KebabAtCapital(s, i, j);
    KebabIdentity(s, j);
    AppendAssoc(s[0..i], "-" + Lower(s[i..j]), s[j..]);
    AppendAssoc(s[0..i], "-", Lower(s[i..j]));
  }

  /** A capital after the first character opens a hyphenated token. */
  lemma KebabAtCapital(s: string, i: nat, j: nat)
    requires 0 < i < |s| && IsUpper(s[i]) && j == i + MatchLength(s, i)
    ensures KebabFrom(s, i) == "-" + Lower(s[i..j]) + KebabFrom(s, j)
  {
  }

  /** The three parts of `a + m + b` read back by offset. */
  lemma ThreeParts(a: string, m: string, b: string)
    ensures var s := a + m + b;
      && s[0..|a|] == a && s[|a|..|a| + |m|] == m && s[|a| + |m|..] == b
      && (forall k :: 0 <= k < |a| ==> s[k] == a[k])
      && (forall k :: 0 <= k < |m| ==> s[|a| + k] == m[k])
      && (forall k :: 0 <= k < |b| ==> s[|a| + |m| + k] == b[k])
  {
  }

  lemma {:induction false} RunEndOfRun(s: string, i: nat, j: nat)
    requires i <= j <= |s|
    requires forall k :: i <= k < j ==> IsUpper(s[k])
    requires j == |s| || !IsUpper(s[j])
    ensures RunEnd(s, i) == j
    decreases j - i
  {
    if i < j {
      RunEndOfRun(s, i + 1, j);
    }
  }

  lemma BackgroundColor()
    ensures CamelCaseToKebabCase("backgroundColor") == "background-color"
    ensures CamelCaseToKebabCase("opacity") == "opacity"
  {
    CamelWord("background", 'C', "olor");
    assert "background" + ['C'] + "olor" == "backgroundColor";
    assert "background" + "-" + [LowerChar('C')] + "olor" == "background-color";
    KebabIdentity("opacity", 0);
  }

  // ---------------------------------------------------------------------
  // Strings the styles are made of
  // ---------------------------------------------------------------------

  /** `xs.join(sep)`. */
  function Join(xs: seq<string>, sep: string): string {
    if xs == [] then ""
    else if |xs| == 1 then xs[0]
    else Join(xs[..|xs| - 1], sep) + sep + xs[|xs| - 1]
  }

  lemma {:induction false} JoinNoUpper(xs: seq<string>, sep: string)
    requires NoUpper(sep)
    requires forall i :: 0 <= i < |xs| ==> NoUpper(xs[i])
    ensures NoUpper(Join(xs, sep))
  {
    if |xs| > 1 {
      JoinNoUpper(xs[..|xs| - 1], sep);
    }
  }

  /** `placement.split('-')[0]`: the text before the first `-`. */
  function Side(placement: string): (r: string)
    ensures r <= placement
    ensures '-' !in r
    ensures |r| < |placement| ==> placement[|r|] == '-'
  {
    if placement == [] || placement[0] == '-' then "" else [placement[0]] + Side(placement[1..])
  }

  // ---------------------------------------------------------------------
  // Durations
  // ---------------------------------------------------------------------

  /** `duration`: one number for both phases, or an object with optional
      `open` and `close` numbers. */
  datatype Duration = DurationMs(ms: int) | DurationPair(open: Option<int>, close: Option<int>)

  const DefaultDuration := DurationMs(250)

  /** `(isNumberDuration ? duration : duration.open / .close) || 0`, with
      `duration` defaulting to 250. */
  function PhaseDuration(duration: Option<Duration>, closing: bool): (r: int)
    ensures duration.None? ==> r == 250
    ensures duration.Some? && duration.value.DurationMs? ==> r == duration.value.ms
    ensures duration.Some? && duration.value.DurationPair? ==>
      var field := if closing then duration.value.close else duration.value.open;
      r == (if field.Some? then field.value else 0)
  {
    var d := if duration.Some? then duration.value else DefaultDuration;
    match d
    case DurationMs(ms) => if ms != 0 then ms else 0
    case DurationPair(o, c) =>
      var field := if closing then c else o;
      if field.Some? && field.value != 0 then field.value else 0
  }

  /** A single number applies to both phases. */
  lemma NumberDurationBothPhases(duration: Option<Duration>)
    requires duration.None? || duration.value.DurationMs?
    ensures PhaseDuration(duration, true) == PhaseDuration(duration, false)
  {
  }

  // ---------------------------------------------------------------------
  // Status
  // ---------------------------------------------------------------------

  datatype Status = Unmounted | Initial | Open | Close

  /** `useDelayUnmount`: the mounted flag is the `open` argument (the
      duration is not used). */
  method UseDelayUnmount(open: bool, durationMs: int) returns (mounted: bool)
    ensures mounted == open
  {
    var isMounted := open;
    if open && !isMounted {
      isMounted := true;
    }
    mounted := isMounted;
  }

  /** The `status` cell of one `useTransitionStatus` call, with the number of
      timers that are to set it to `open`. */
  class StatusCell {
    var status: Status
    var pendingOpenTimers: nat

    constructor ()
      ensures status == Unmounted && pendingOpenTimers == 0
    {
      status := Unmounted;
      pendingOpenTimers := 0;
    }

    /** The status rules: an unmounted element whose status is `close`
        becomes `unmounted`; with a floating element, open gives `initial`
        and arms a timer, closed gives `close`; without one the status is
        left as the first rule made it. */
    method Settle(isMounted: bool, open: bool, floatingPresent: bool)
      modifies this
      ensures floatingPresent ==> status == (if open then Initial else Close)
      ensures !floatingPresent ==>
        status == (if !isMounted && old(status) == Close then Unmounted else old(status))
      ensures pendingOpenTimers == old(pendingOpenTimers) + (if floatingPresent && open then 1 else 0)
    {
      if !isMounted && status == Close {
        status := Unmounted;
      }
      if floatingPresent {
        if open {
          status := Initial;
          pendingOpenTimers := pendingOpenTimers + 1;
        } else {
          status := Close;
        }
      }
    }

    /** The zero-delay timer fires. */
    method FireOpenTimer()
      requires pendingOpenTimers > 0
      modifies this
      ensures status == Open && pendingOpenTimers == old(pendingOpenTimers) - 1
    {
      status := Open;
      pendingOpenTimers := pendingOpenTimers - 1;
    }
  }

  /** The status one call returns: it reads its fresh cell before the timer
      can fire, so it is never `open`. */
  function CallStatus(open: bool, floatingPresent: bool): (r: Status)
    ensures r != Open
    ensures r == Initial <==> floatingPresent && open
    ensures r == Close <==> floatingPresent && !open
  {
    if !floatingPresent then Unmounted else if open then Initial else Close
  }

  /** `useTransitionStatus`: the mounted flag, the status read at return,
      and the cell the pending timer will write. */
  method UseTransitionStatus(open: bool, floatingPresent: bool, duration: Option<Duration>)
    returns (isMounted: bool, status: Status, cell: StatusCell)
    ensures fresh(cell)
    ensures isMounted == open && status == CallStatus(open, floatingPresent) && cell.status == status
    ensures cell.pendingOpenTimers == if floatingPresent && open then 1 else 0
  {
    var closeDuration := PhaseDuration(duration, true);
    cell := new StatusCell();
    isMounted := UseDelayUnmount(open, closeDuration);
    cell.Settle(isMounted, open, floatingPresent);
    status := cell.status;
  }

  // ---------------------------------------------------------------------
  // Styles
  // ---------------------------------------------------------------------

  /** A style option: an object, or a function of `{side, placement}`. */
  datatype StylesOption = StylesObj(obj: Object) | StylesFn(f: (string, string) -> Object)

  datatype StyleProps = StyleProps(initial: Option<StylesOption>, open: Option<StylesOption>,
                                   close: Option<StylesOption>, common: Option<StylesOption>,
                                   duration: Option<Duration>)

  const DefaultInitial := StylesObj([("opacity", Num(0))])

  /** `execWithArgsOrReturn`. */
  function Exec(option: Option<StylesOption>, side: string, placement: string): (r: Option<Object>)
    ensures option.None? <==> r.None?
    ensures option.Some? && option.value.StylesObj? ==> r == Some(option.value.obj)
  {
    match option
    case None => None
    case Some(StylesObj(o)) => Some(o)
    case Some(StylesFn(f)) => Some(f(side, placement))
  }

  function InitialStyles(p: StyleProps, side: string, placement: string): Object {
    Exec(Some(if p.initial.Some? then p.initial.value else DefaultInitial), side, placement).value
  }

  /** Every key of `keys` set to `''`, in first-occurrence order. */
  function BlankStyles(keys: seq<string>): Object {
    if keys == [] then [] else Set(BlankStyles(keys[..|keys| - 1]), keys[|keys| - 1], Str(""))
  }

  lemma {:induction false} BlankStylesGet(keys: seq<string>, k: string)
    ensures Get(BlankStyles(keys), k) == if k in keys then Some(Str("")) else None
  {
    if keys != [] {
      var init := keys[..|keys| - 1];
      BlankStylesGet(init, k);
      GetSet(BlankStyles(init), keys[|keys| - 1], Str(""), k);
      assert keys == init + [keys[|keys| - 1]];
    }
  }

  lemma {:induction false} BlankStylesUnique(keys: seq<string>)
    ensures UniqueKeys(BlankStyles(keys))
  {
    if keys != [] {
      BlankStylesUnique(keys[..|keys| - 1]);
      SetUnique(BlankStyles(keys[..|keys| - 1]), keys[|keys| - 1], Str(""));
    }
  }

  /** The open styles: the `open` option, or every initial key set to `''`. */
  function OpenStyles(p: StyleProps, side: string, placement: string): Object {
    var o := Exec(p.open, side, placement);
    if o.Some? then o.value else BlankStyles(Keys(InitialStyles(p, side, placement)))
  }

  /** The close styles: the `close` option, or the initial styles. */
  function CloseStyles(p: StyleProps, side: string, placement: string): Object {
    var c := Exec(p.close, side, placement);
    if c.Some? then c.value else InitialStyles(p, side, placement)
  }

  /** `transitionProperty`: the keys, kebab-cased, joined by `,`. */
  function TransitionProperty(o: Object): string {
    Join(seq(|o|, i requires 0 <= i < |o| => CamelCaseToKebabCase(o[i].0)), ",")
  }

  /** `${ms}ms`. */
  function DurationText(ms: int): string {
    IntToString(ms) + "ms"
  }

  /** The transition base of the open and close phases, then the common and
      the phase's styles spread over it. */
  function PhaseStyles(phase: Object, duration: int, common: Option<Object>): Object {
    Spread(SpreadOpt([("transitionProperty", Str(TransitionProperty(phase))),
                      ("transitionDuration", Str(DurationText(duration)))], common), phase)
  }

  /** The styles value for a status.  For `initial` the property copied is
      that of the cell object itself, which has none: `undefined`. */
  function StylesFor(status: Status, p: StyleProps, placement: string): Object {
    var side := Side(placement);
    var common := Exec(p.common, side, placement);
    var initial := InitialStyles(p, side, placement);
    match status
    case Unmounted => Spread(SpreadOpt([], common), initial)
    case Initial => Spread(SpreadOpt([("transitionProperty", Undefined)], common), initial)
    case Open => PhaseStyles(OpenStyles(p, side, placement), PhaseDuration(p.duration, false), common)
    case Close => PhaseStyles(CloseStyles(p, side, placement), PhaseDuration(p.duration, true), common)
  }

  /** `useTransitionStyles`: the styles cell starts as common and initial
      styles and is rewritten according to the status the call read. */
  method UseTransitionStyles(open: bool, floatingPresent: bool, placement: string, p: StyleProps)
    returns (isMounted: bool, styles: Object)
    ensures isMounted == open
    ensures styles == StylesFor(CallStatus(open, floatingPresent), p, placement)
  {
    var side := Side(placement);
    var openDuration := PhaseDuration(p.duration, false);
    var closeDuration := PhaseDuration(p.duration, true);
    var common := Exec(p.common, side, placement);
    var initial := InitialStyles(p, side, placement);
    styles := Spread(SpreadOpt([], common), initial);
    var status, cell;
    isMounted, status, cell := UseTransitionStatus(open, floatingPresent, p.duration);
    if status == Initial {
      styles := Spread(SpreadOpt([("transitionProperty", Undefined)], common), initial);
    }
    if status == Open {
      styles := PhaseStyles(OpenStyles(p, side, placement), openDuration, common);
    }
    if status == Close {
      styles := PhaseStyles(CloseStyles(p, side, placement), closeDuration, common);
    }
  }

  /** The property list of a phase never holds a capital letter. */
  lemma TransitionPropertyNoUpper(o: Object)
    ensures NoUpper(TransitionProperty(o))
  {
    var names := seq(|o|, i requires 0 <= i < |o| => CamelCaseToKebabCase(o[i].0));
    forall i | 0 <= i < |names|
      ensures NoUpper(names[i])
    {
      KebabNoUpper(o[i].0, 0);
    }
    JoinNoUpper(names, ",");
  }

  /** In a phase, `transitionProperty` and `transitionDuration` are those of
      the phase's own styles unless the common or the phase styles set them. */
  lemma PhaseStylesTransition(phase: Object, duration: int, common: Option<Object>)
    requires common.None? || (Last(common.value, "transitionProperty").None? &&
                              Last(common.value, "transitionDuration").None?)
    requires Last(phase, "transitionProperty").None? && Last(phase, "transitionDuration").None?
    ensures Get(PhaseStyles(phase, duration, common), "transitionProperty") == Some(Str(TransitionProperty(phase)))
    ensures Get(PhaseStyles(phase, duration, common), "transitionDuration") == Some(Str(DurationText(duration)))
  {
    var base := [("transitionProperty", Str(TransitionProperty(phase))),
                 ("transitionDuration", Str(DurationText(duration)))];
    SpreadGet(SpreadOpt(base, common), phase, "transitionProperty");
    SpreadGet(SpreadOpt(base, common), phase, "transitionDuration");
    SpreadOptGet(base, common, "transitionProperty");
    SpreadOptGet(base, common, "transitionDuration");
  }

  /** Without an `open` option, every initial key reads `''` in the open
      styles. */
  lemma OpenStylesBlankInitial(p: StyleProps, placement: string, k: string)
    requires p.open.None?
    requires k in Keys(InitialStyles(p, Side(placement), placement))
    ensures Get(StylesFor(Open, p, placement), k) == Some(Str(""))
  {
    var side := Side(placement);
    var keys := Keys(InitialStyles(p, side, placement));
    var os := BlankStyles(keys);
    var common := Exec(p.common, side, placement);
    var base := [("transitionProperty", Str(TransitionProperty(os))),
                 ("transitionDuration", Str(DurationText(PhaseDuration(p.duration, false))))];
    BlankStylesGet(keys, k);
    BlankStylesUnique(keys);
    LastIsGet(os, k);
    SpreadGet(SpreadOpt(base, common), os, k);
  }

  /** Without a `close` option, the close styles show the initial styles. */
  lemma CloseStylesFallBackToInitial(p: StyleProps, placement: string, k: string)
    requires p.close.None?
    requires Last(InitialStyles(p, Side(placement), placement), k).Some?
    ensures Get(StylesFor(Close, p, placement), k) == Last(InitialStyles(p, Side(placement), placement), k)
  {
    var side := Side(placement);
    var cs := InitialStyles(p, side, placement);
    var common := Exec(p.common, side, placement);
    var base := [("transitionProperty", Str(TransitionProperty(cs))),
                 ("transitionDuration", Str(DurationText(PhaseDuration(p.duration, true))))];
    SpreadGet(SpreadOpt(base, common), cs, k);
  }

  /** The default initial style is `opacity: 0`, and it is what a mounted
      closed element shows when no `close` option is given. */
  lemma DefaultInitialOpacity(p: StyleProps, placement: string)
    requires p.initial.None? && p.close.None?
    ensures Get(StylesFor(Close, p, placement), "opacity") == Some(Num(0))
    ensures Get(StylesFor(Unmounted, p, placement), "opacity") == Some(Num(0))
  {
    CloseStylesFallBackToInitial(p, placement, "opacity");
    var side := Side(placement);
    SpreadGet(SpreadOpt([], Exec(p.common, side, placement)), InitialStyles(p, side, placement), "opacity");
  }
}
