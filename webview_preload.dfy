/**
 * The decisions app/content/webviewPreload.js makes inside a web page:
 * which size an ad replacement gets, whether an element takes typed text,
 * the shift/cmd state machine of the key handlers and the navigation
 * messages it sends, and how the ad candidates of a `SET_AD_DIV_CANDIDATES`
 * message are split between direct replacement and the fallback table kept
 * for the common ad containers. The DOM is reduced to what these decisions
 * read: element sizes, node names, `contentEditable`, and the set of element
 * ids on the page.
 */
module WebviewPreload {
  import opened Wrappers

  // ---------------------------------------------------------------------------
  // Ad sizes

  /** The ad sizes a replacement may take, as (width, height), in the order they are tried. */
  const AcceptableAdSizes: seq<(int, int)> :=
    [(970, 250), (970, 90), (728, 90), (300, 250), (300, 600), (160, 600), (120, 600), (320, 50)]

  /** An element fits a size when one side is equal to it and the other at least as large. */
  predicate Fits(offsetWidth: int, offsetHeight: int, size: (int, int))
  {
    || (offsetWidth == size.0 && offsetHeight >= size.1)
    || (offsetWidth >= size.0 && offsetHeight == size.1)
  }

  /** Entry `i` is the first acceptable size the element fits. */
  predicate FirstFit(offsetWidth: int, offsetHeight: int, i: int)
  {
    && 0 <= i < |AcceptableAdSizes|
    && Fits(offsetWidth, offsetHeight, AcceptableAdSizes[i])
    && forall j :: 0 <= j < i ==> !Fits(offsetWidth, offsetHeight, AcceptableAdSizes[j])
  }

  /** The data the browser knows about one ad candidate; any property may be missing. */
  datatype IframeData = IframeData(
    replapceId: Option<string>,
    rid: Option<string>,
    width: Option<int>,
    height: Option<int>,
    w: Option<int>,
    h: Option<int>)

  /** A size `[width, height]`; a side taken from `IframeData` may be `undefined`. */
  datatype AdSize = AdSize(width: Option<int>, height: Option<int>)

  /** JavaScript's `a || b` on two numbers that may be missing: 0 and `undefined` are falsy. */
  function OrNumber(a: Option<int>, b: Option<int>): Option<int>
  {
    if a.Some? && a.value != 0 then a else b
  }

  /** The size `getAdSize` falls back to: `[width || w, height || h]`, or `null` without iframe data. */
  function FallbackSize(iframeData: Option<IframeData>): (r: Option<AdSize>)
    ensures r.Some? <==> iframeData.Some?
    ensures r.Some? ==> r.value.width.Some? ==> r.value.width == iframeData.value.width || r.value.width == iframeData.value.w
    ensures r.Some? ==> var d := iframeData.value;
      && (d.width.Some? && d.width.value != 0 ==> r.value.width == d.width)
      && (d.width.None? || d.width.value == 0 ==> r.value.width == d.w)
      && (d.height.Some? && d.height.value != 0 ==> r.value.height == d.height)
      && (d.height.None? || d.height.value == 0 ==> r.value.height == d.h)
  {
    if iframeData.None? then None
    else
      var d := iframeData.value;
      Some(AdSize(OrNumber(d.width, d.w), OrNumber(d.height, d.h)))
  }

  /**
   * `getAdSize(node, iframeData)`: the first acceptable size, in table order,
   * that the element fits; when none fits, the size the iframe data gives,
   * and nothing without iframe data.
   */
  method GetAdSize(offsetWidth: int, offsetHeight: int, iframeData: Option<IframeData>) returns (r: Option<AdSize>)
    ensures (exists i :: 0 <= i < |AcceptableAdSizes| && Fits(offsetWidth, offsetHeight, AcceptableAdSizes[i])) ==>
      exists i :: FirstFit(offsetWidth, offsetHeight, i)
        && r == Some(AdSize(Some(AcceptableAdSizes[i].0), Some(AcceptableAdSizes[i].1)))
    ensures (forall i :: 0 <= i < |AcceptableAdSizes| ==> !Fits(offsetWidth, offsetHeight, AcceptableAdSizes[i])) ==>
      r == FallbackSize(iframeData)
  {
    var i := 0;
    while i < |AcceptableAdSizes|
      invariant 0 <= i <= |AcceptableAdSizes|
      invariant forall j :: 0 <= j < i ==> !Fits(offsetWidth, offsetHeight, AcceptableAdSizes[j])
    {
      var adSize := AcceptableAdSizes[i];
      if Fits(offsetWidth, offsetHeight, adSize) {
        assert FirstFit(offsetWidth, offsetHeight, i);
        return Some(AdSize(Some(adSize.0), Some(adSize.1)));
      }
      i := i + 1;
    }
    if iframeData.Some? {
      var d := iframeData.value;
      return Some(AdSize(OrNumber(d.width, d.w), OrNumber(d.height, d.h)));
    }
    return None;
  }

  // ---------------------------------------------------------------------------
  // Editable elements

  /** What `isEditable` reads of an element: its node name and its `contentEditable` string. */
  datatype Element = Element(nodeName: string, contentEditable: Option<string>)

  /**
   * `isEditable(elem)`: a truthy `contentEditable` other than `'false'` and
   * `'inherit'`, or an `INPUT` or `TEXTAREA` element.
   */
  predicate IsEditable(elem: Element)
  {
    || (elem.contentEditable.Some? && elem.contentEditable.value != ""
        && elem.contentEditable.value != "false" && elem.contentEditable.value != "inherit")
    || elem.nodeName == "INPUT"
    || elem.nodeName == "TEXTAREA"
  }

  /** The values the DOM gives `contentEditable`. */
  predicate IsDomContentEditable(value: string)
  {
    value == "true" || value == "false" || value == "plaintext-only" || value == "inherit"
  }

  /**
   * For the values the DOM actually gives `contentEditable`, an element is
   * editable exactly when it is `'true'` or `'plaintext-only'`, or the element
   * is an `INPUT` or `TEXTAREA`; an element without the property is editable
   * only by its name.
   */
  lemma EditableByDomValue(elem: Element)
    requires elem.contentEditable.Some? ==> IsDomContentEditable(elem.contentEditable.value)
    ensures IsEditable(elem) <==>
      || (elem.contentEditable.Some? && elem.contentEditable.value in {"true", "plaintext-only"})
      || elem.nodeName in {"INPUT", "TEXTAREA"}
  {
  }

  // ---------------------------------------------------------------------------
  // The key handlers

  /** The key codes the handlers react to; every other code is `OtherKey`. */
  datatype KeyCode = Esc | Backspace | Shift | Cmd1 | Cmd2 | Left | Right | OtherKey(code: int)

  /** The messages the key handlers send to the browser process. */
  datatype Message = StopLoad | GoBack | GoForward

  datatype KeyEvent = KeyDown(key: KeyCode) | KeyUp(key: KeyCode)

  /** The two modifiers the handlers track: shift, and cmd on either of its two key codes. */
  datatype Modifier = ShiftModifier | CmdModifier

  predicate IsModifierKey(key: KeyCode, m: Modifier)
  {
    match m
    case ShiftModifier => key == Shift
    case CmdModifier => key == Cmd1 || key == Cmd2
  }

  /** `isPlatformOSX()`: the platform string contains `Mac`. */
  predicate IsPlatformOSX(platform: string)
  {
    Includes(platform, "Mac")
  }

  /** Whether a modifier is held after `events`: the last key event of that modifier decides; none means up. */
  function Held(events: seq<KeyEvent>, m: Modifier): bool
  {
    if events == [] then false
    else
      var e := events[|events| - 1];
      if IsModifierKey(e.key, m) then e.KeyDown? else Held(events[..|events| - 1], m)
  }

  lemma HeldAppend(events: seq<KeyEvent>, e: KeyEvent, m: Modifier)
    ensures Held(events + [e], m) == if IsModifierKey(e.key, m) then e.KeyDown? else Held(events, m)
  {
    assert (events + [e])[..|events|] == events;
  }

  /** Event `i` presses the modifier and no later event releases it. */
  predicate LastPress(events: seq<KeyEvent>, m: Modifier, i: int)
  {
    && 0 <= i < |events| && events[i].KeyDown? && IsModifierKey(events[i].key, m)
    && forall j :: i < j < |events| ==> !(events[j].KeyUp? && IsModifierKey(events[j].key, m))
  }

  /**
   * A modifier is held exactly when some key-down of it has happened and no
   * key-up of it came afterwards.
   */
  lemma {:induction false} HeldIff(events: seq<KeyEvent>, m: Modifier)
    ensures Held(events, m) <==> exists i :: LastPress(events, m, i)
  {
    if events != [] {
      var n := |events| - 1;
      var init := events[..n];
      var e := events[n];
      HeldIff(init, m);
      if IsModifierKey(e.key, m) {
        if e.KeyDown? {
          assert LastPress(events, m, n);
        } else {
          forall i | 0 <= i < |events|
            ensures !LastPress(events, m, i)
          {
            if i < n {
              assert events[n].KeyUp? && IsModifierKey(events[n].key, m);
            }
          }
        }
      } else {
        forall i | 0 <= i < n
          ensures LastPress(events, m, i) <==> LastPress(init, m, i)
        {
          assert forall j :: i < j < n ==> events[j] == init[j];
        }
        assert !LastPress(events, m, n);
      }
    }
  }

  /**
   * The page's `onkeydown`/`onkeyup` handlers and the module variables
   * `shiftDown` and `cmdDown` they share. `sent` is what they have sent over
   * IPC, oldest first; `events` is every key event they have seen.
   */
  class KeyHandler {
    var shiftDown: bool
    var cmdDown: bool
    var sent: seq<Message>
    ghost var events: seq<KeyEvent>

    /** Each flag says whether its modifier is held after the events seen so far. */
    ghost predicate Valid()
      reads this
    {
      shiftDown == Held(events, ShiftModifier) && cmdDown == Held(events, CmdModifier)
    }

    constructor()
      ensures Valid()
      ensures !shiftDown && !cmdDown && sent == [] && events == []
    {
      shiftDown := false;
      cmdDown := false;
      sent := [];
      events := [];
    }

    /**
     * `document.onkeydown`. ESC stops the load. BACKSPACE goes forward with
     * shift held and back otherwise, unless the focused element is editable.
     * LEFT and RIGHT go back and forward only with cmd held, outside editable
     * elements, on OS X. SHIFT and CMD set their flag.
     */
    method OnKeyDown(key: KeyCode, activeElement: Element, platform: string)
      requires Valid()
      modifies this
      ensures Valid()
      ensures events == old(events) + [KeyDown(key)]
      ensures shiftDown == (key == Shift || old(shiftDown))
      ensures cmdDown == (key == Cmd1 || key == Cmd2 || old(cmdDown))
      ensures key == Esc ==> sent == old(sent) + [StopLoad]
      ensures key == Backspace ==>
        sent == old(sent) + if IsEditable(activeElement) then [] else [if Held(old(events), ShiftModifier) then GoForward else GoBack]
      ensures key == Left ==>
        sent == old(sent) + if Held(old(events), CmdModifier) && !IsEditable(activeElement) && IsPlatformOSX(platform) then [GoBack] else []
      ensures key == Right ==>
        sent == old(sent) + if Held(old(events), CmdModifier) && !IsEditable(activeElement) && IsPlatformOSX(platform) then [GoForward] else []
      ensures key !in {Esc, Backspace, Left, Right} ==> sent == old(sent)
    {
      HeldAppend(events, KeyDown(key), ShiftModifier);
      HeldAppend(events, KeyDown(key), CmdModifier);
      events := events + [KeyDown(key)];
      match key
      case Esc =>
        sent := sent + [StopLoad];
      case Backspace =>
        var msg := if shiftDown then GoForward else GoBack;
        if !IsEditable(activeElement) {
          sent := sent + [msg];
        }
      case Shift =>
        shiftDown := true;
      case Cmd1 =>
        cmdDown := true;
      case Cmd2 =>
        cmdDown := true;
      case Left =>
        if cmdDown && !IsEditable(activeElement) && IsPlatformOSX(platform) {
          sent := sent + [GoBack];
        }
      case Right =>
        if cmdDown && !IsEditable(activeElement) && IsPlatformOSX(platform) {
          sent := sent + [GoForward];
        }
      case OtherKey(_) =>
    }

    /** `document.onkeyup`: SHIFT and CMD clear their flag; nothing is sent. */
    method OnKeyUp(key: KeyCode)
      requires Valid()
      modifies this
      ensures Valid()
      ensures events == old(events) + [KeyUp(key)]
      ensures shiftDown == (key != Shift && old(shiftDown))
      ensures cmdDown == (key != Cmd1 && key != Cmd2 && old(cmdDown))
      ensures sent == old(sent)
    {
      HeldAppend(events, KeyUp(key), ShiftModifier);
      HeldAppend(events, KeyUp(key), CmdModifier);
      events := events + [KeyUp(key)];
      match key
      case Shift =>
        shiftDown := false;
      case Cmd1 =>
        cmdDown := false;
      case Cmd2 =>
        cmdDown := false;
      case _ =>
    }
  }

  // ---------------------------------------------------------------------------
  // Ad candidates

  /** JavaScript's `a || b` on two strings that may be missing: `''` and `undefined` are falsy. */
  function OrString(a: Option<string>, b: Option<string>): Option<string>
  {
    if a.Some? && a.value != "" then a else b
  }

  /** `iframeData.replapceId || iframeData.rid`. */
  function ReplaceId(d: IframeData): Option<string>
  {
    OrString(d.replapceId, d.rid)
  }

  /** The id the selector `[id="…"]` looks for: an undefined replace id is spelled `undefined`. */
  function SelectorId(d: IframeData): string
  {
    var r := ReplaceId(d);
    if r.Some? then r.value else "undefined"
  }

  /** The ids of the common ad containers, which are left to the common-selector pass. */
  predicate IsCommonElement(replaceId: string)
  {
    StartsWith(replaceId, "google_ads_iframe_") || EndsWith(replaceId, "__container__")
  }

  /** What the handler does with one candidate. */
  datatype Handling =
    | Absent   // no element on the page has the candidate's id: skipped
    | Throw    // the element is found but the replace id is undefined: `startsWith` throws
    | Defer    // a common ad container: kept in the fallback table under the element's id
    | Replace  // any other found element: replaced straight away

  /** The handler's checks on one candidate, in its order: is the element there, is the id defined, is it a common container. */
  function HandlingOf(d: IframeData, pageIds: set<string>): Handling
  {
    var replaceId := ReplaceId(d);
    if SelectorId(d) !in pageIds then Absent
    else if replaceId.None? then Throw
    else if IsCommonElement(replaceId.value) then Defer
    else Replace
  }

  predicate Throws(d: IframeData, pageIds: set<string>)
  {
    HandlingOf(d, pageIds) == Throw
  }

  predicate Deferred(d: IframeData, pageIds: set<string>)
  {
    HandlingOf(d, pageIds) == Defer
  }

  predicate ReplacedDirectly(d: IframeData, pageIds: set<string>)
  {
    HandlingOf(d, pageIds) == Replace
  }

  /** The position of the first candidate that throws, or the number of candidates. */
  function FirstThrow(candidates: seq<IframeData>, pageIds: set<string>): (n: nat)
    ensures n <= |candidates|
    ensures forall j :: 0 <= j < n ==> !Throws(candidates[j], pageIds)
    ensures n < |candidates| ==> Throws(candidates[n], pageIds)
  {
    if candidates == [] then 0
    else if Throws(candidates[0], pageIds) then 0
    else 1 + FirstThrow(candidates[1..], pageIds)
  }

  /** The candidates replaced straight away, in message order. */
  function DirectReplacements(candidates: seq<IframeData>, pageIds: set<string>): (r: seq<IframeData>)
    ensures forall d :: d in r <==> d in candidates && ReplacedDirectly(d, pageIds)
    ensures |r| <= |candidates|
  {
    if candidates == [] then []
    else
      var n := |candidates| - 1;
      var init := DirectReplacements(candidates[..n], pageIds);
      assert forall d :: d in candidates <==> d in candidates[..n] || d == candidates[n];
      if ReplacedDirectly(candidates[n], pageIds) then init + [candidates[n]] else init
  }

  /** What one candidate contributes to the direct replacements. */
  function Kept(d: IframeData, pageIds: set<string>): seq<IframeData>
  {
    if ReplacedDirectly(d, pageIds) then [d] else []
  }

  lemma DirectReplacementsSnoc(c: seq<IframeData>, x: IframeData, pageIds: set<string>)
    ensures DirectReplacements(c + [x], pageIds) == DirectReplacements(c, pageIds) + Kept(x, pageIds)
  {
    assert (c + [x])[..|c|] == c;
  }

  /** A single candidate is kept exactly when it is replaced directly. */
  lemma DirectReplacementsOne(d: IframeData, pageIds: set<string>)
    ensures DirectReplacements([d], pageIds) == Kept(d, pageIds)
  {
    DirectReplacementsSnoc([], d, pageIds);
    assert [] + [d] == [d];
  }

  /**
   * The direct replacements are a filter of the candidates: those of a
   * concatenation are those of each part, in order.
   */
  lemma {:induction false} DirectReplacementsAppend(a: seq<IframeData>, b: seq<IframeData>, pageIds: set<string>)
    ensures DirectReplacements(a + b, pageIds) == DirectReplacements(a, pageIds) + DirectReplacements(b, pageIds)
    decreases |b|
  {
    if b == [] {
      assert a + b == a;
    } else {
      var n := |b| - 1;
      var x := b[n];
      assert b == b[..n] + [x];
      assert a + b == (a + b[..n]) + [x];
      DirectReplacementsAppend(a, b[..n], pageIds);
      DirectReplacementsSnoc(a + b[..n], x, pageIds);
      DirectReplacementsSnoc(b[..n], x, pageIds);
      AppendAssoc(DirectReplacements(a, pageIds), DirectReplacements(b[..n], pageIds), Kept(x, pageIds));
    }
  }

  /** A candidate replaced directly is handled as many times as the message names it; any other, never. */
  lemma {:induction false} DirectReplacementsCount(candidates: seq<IframeData>, pageIds: set<string>, d: IframeData)
    ensures multiset(DirectReplacements(candidates, pageIds))[d]
      == if ReplacedDirectly(d, pageIds) then multiset(candidates)[d] else 0
  {
    if candidates != [] {
      var n := |candidates| - 1;
      DirectReplacementsCount(candidates[..n], pageIds, d);
      assert candidates == candidates[..n] + [candidates[n]];
    }
  }

  /** The fallback table: for each deferred element id, the last candidate that named it. */
  function FallbackTable(candidates: seq<IframeData>, pageIds: set<string>): map<string, IframeData>
  {
    if candidates == [] then map[]
    else
      var n := |candidates| - 1;
      var table := FallbackTable(candidates[..n], pageIds);
      if Deferred(candidates[n], pageIds) then table[SelectorId(candidates[n]) := candidates[n]] else table
  }

  /** Candidate `i` is deferred under `id` and no later candidate is. */
  predicate LastDeferred(candidates: seq<IframeData>, pageIds: set<string>, id: string, i: int)
  {
    && 0 <= i < |candidates| && Deferred(candidates[i], pageIds) && SelectorId(candidates[i]) == id
    && forall j :: i < j < |candidates| ==> !(Deferred(candidates[j], pageIds) && SelectorId(candidates[j]) == id)
  }

  /**
   * The fallback table holds an entry for an id exactly when some deferred
   * candidate named it, and that entry is the last such candidate.
   */
  lemma {:induction false} FallbackTableEntries(candidates: seq<IframeData>, pageIds: set<string>, id: string)
    ensures id in FallbackTable(candidates, pageIds) <==> exists i :: LastDeferred(candidates, pageIds, id, i)
    ensures forall i :: LastDeferred(candidates, pageIds, id, i) ==> FallbackTable(candidates, pageIds)[id] == candidates[i]
  {
    if candidates != [] {
      var n := |candidates| - 1;
      var init := candidates[..n];
      FallbackTableEntries(init, pageIds, id);
      if Deferred(candidates[n], pageIds) && SelectorId(candidates[n]) == id {
        assert LastDeferred(candidates, pageIds, id, n);
        forall i | LastDeferred(candidates, pageIds, id, i)
          ensures i == n
        {
        }
      } else {
        forall i | 0 <= i < n
          ensures LastDeferred(candidates, pageIds, id, i) <==> LastDeferred(init, pageIds, id, i)
        {
          assert forall j :: i < j < n ==> candidates[j] == init[j];
        }
        assert !LastDeferred(candidates, pageIds, id, n);
      }
    }
  }

  /** A candidate at or before the first throw that throws is the first throw; one that does not is before it. */
  lemma FirstThrowStep(candidates: seq<IframeData>, pageIds: set<string>, i: int)
    requires 0 <= i < |candidates| && i <= FirstThrow(candidates, pageIds)
    ensures Throws(candidates[i], pageIds) ==> FirstThrow(candidates, pageIds) == i
    ensures !Throws(candidates[i], pageIds) ==> i + 1 <= FirstThrow(candidates, pageIds)
  {
  }

  /** One more candidate: the two results of the first pass grow by what that candidate contributes. */
  lemma ClassifyOneMore(candidates: seq<IframeData>, pageIds: set<string>, i: int)
    requires 0 <= i < |candidates|
    ensures var d := candidates[i];
      && DirectReplacements(candidates[..i + 1], pageIds)
        == DirectReplacements(candidates[..i], pageIds) + (if ReplacedDirectly(d, pageIds) then [d] else [])
      && FallbackTable(candidates[..i + 1], pageIds)
        == if Deferred(d, pageIds) then FallbackTable(candidates[..i], pageIds)[SelectorId(d) := d] else FallbackTable(candidates[..i], pageIds)
  {
    assert candidates[..i + 1][..i] == candidates[..i];
  }

  /**
   * The first pass of the `SET_AD_DIV_CANDIDATES` handler over the candidate
   * list. A candidate whose element is not on the page is skipped; one with a
   * common-container id goes into the fallback table under its element's id;
   * any other is replaced straight away. A found element with an undefined
   * replace id throws, which ends the handler.
   */
  method ClassifyCandidates(candidates: seq<IframeData>, pageIds: set<string>)
    returns (fallback: map<string, IframeData>, replaced: seq<IframeData>, outcome: Outcome<string>)
    ensures var n := FirstThrow(candidates, pageIds);
      && replaced == DirectReplacements(candidates[..n], pageIds)
      && fallback == FallbackTable(candidates[..n], pageIds)
      && (outcome.Fail? <==> n < |candidates|)
  {
    fallback := map[];
    replaced := [];
    var i := 0;
    while i < |candidates|
      invariant 0 <= i <= FirstThrow(candidates, pageIds)
      invariant replaced == DirectReplacements(candidates[..i], pageIds)
      invariant fallback == FallbackTable(candidates[..i], pageIds)
    {
      var iframeData := candidates[i];
      FirstThrowStep(candidates, pageIds, i);
      ClassifyOneMore(candidates, pageIds, i);
      match HandlingOf(iframeData, pageIds) {
        case Throw =>
          return fallback, replaced, Fail("TypeError");
        case Defer =>
          fallback := fallback[SelectorId(iframeData) := iframeData];
        case Replace =>
          replaced := replaced + [iframeData];
        case Absent =>
      }
      i := i + 1;
    }
    assert candidates[..i] == candidates;
    return fallback, replaced, Pass;
  }

  /** No common-container candidate is replaced directly, and every candidate replaced directly was on the page. */
  lemma CommonElementsDeferred(candidates: seq<IframeData>, pageIds: set<string>)
    ensures forall d :: d in DirectReplacements(candidates, pageIds) ==>
      ReplaceId(d).Some? && !IsCommonElement(ReplaceId(d).value) && SelectorId(d) in pageIds
  {
  }
}
