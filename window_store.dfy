/**
 * The window-state reducer of js/stores/windowStore.js: the state of one
 * browser window (its frames, the key of the active frame, the closed frames,
 * the tab-strip UI and the search detail) and the `currentKey` counter that
 * numbers new frames, rewritten by `doAction` one action at a time.
 *
 * `ReduceState` and `NextKey` give the reducer's new state and key counter
 * as functions of the old ones and the action; `Store.DoAction` is the
 * reducer as the source writes it, reassigning the state step by step, and
 * is proved to agree with them. The helpers of js/state/frameStateUtil.js
 * that build and remove frames are not part of this model; they are
 * parameters (`FrameStateUtil`).
 */
module WindowStore {
  import opened Wrappers
  import opened Splices

  // ---------------------------------------------------------------------------
  // The window state

  datatype Suggestions = Suggestions(selectedIndex: Option<int>, suggestionList: seq<string>, suggestionResults: seq<string>)

  datatype Urlbar = Urlbar(
    location: string,
    urlPreview: Option<string>,
    focused: bool,
    selected: Option<bool>,
    active: bool,
    suggestions: Suggestions)

  datatype Navbar = Navbar(focused: bool, urlbar: Urlbar)

  /** One tab (a frame) of the window; `key` identifies it. */
  datatype Frame = Frame(
    key: int,
    src: string,
    location: string,
    title: string,
    isPinned: bool,
    loading: bool,
    findbarShown: bool,
    findDetail: Option<string>,
    canGoBack: bool,
    canGoForward: bool,
    audioMuted: bool,
    audioPlaybackActive: bool,
    activeShortcut: Option<string>,
    themeColor: Option<string>,
    icon: Option<string>,
    closedAtIndex: Option<int>,
    tabIsDragging: bool,
    tabIsDraggingOn: bool,
    tabIsDraggingOverLeftHalf: bool,
    tabIsDraggingOverRightHalf: bool,
    navbar: Navbar)

  datatype Tabs = Tabs(activeDraggedTab: Option<Frame>, tabPageIndex: Option<int>)

  datatype Ui = Ui(tabs: Tabs, mouseInTitlebar: bool)

  datatype WindowState = WindowState(
    activeFrameKey: Option<int>,
    frames: seq<Frame>,
    closedFrames: seq<Frame>,
    ui: Ui,
    searchDetail: Option<string>)

  /** The state the module starts with: no frames, nothing active, nothing dragged. */
  const InitialState: WindowState := WindowState(None, [], [], Ui(Tabs(None, None), false), None)

  /** The options object handed through to `addFrame`; its contents are not read here. */
  type FrameOpts = map<string, string>

  /**
   * The plain object that `addFrame`, `removeFrame` and `undoCloseFrame`
   * return and that the store merges into the state: each field is present
   * (`Some`) only when the helper returned that key.
   */
  datatype Patch = Patch(frames: Option<seq<Frame>>, closedFrames: Option<seq<Frame>>, activeFrameKey: Option<Option<int>>)

  /** The helpers of frameStateUtil that the store calls but that are not modelled. */
  datatype FrameStateUtil = FrameStateUtil(
    addFrame: (seq<Frame>, FrameOpts, int, Option<int>) -> Patch,
    removeFrame: (seq<Frame>, seq<Frame>, Frame, int) -> Patch,
    undoCloseFrame: (WindowState, seq<Frame>) -> Patch,
    getFrameTabPageIndex: (seq<Frame>, Frame) -> int)

  /** `windowState.merge(patch)`. */
  function Merge(s: WindowState, p: Patch): WindowState
  {
    s.(frames := if p.frames.Some? then p.frames.value else s.frames,
       closedFrames := if p.closedFrames.Some? then p.closedFrames.value else s.closedFrames,
       activeFrameKey := if p.activeFrameKey.Some? then p.activeFrameKey.value else s.activeFrameKey)
  }

  // ---------------------------------------------------------------------------
  // Finding frames

  function Keys(frames: seq<Frame>): seq<int>
  {
    seq(|frames|, i requires 0 <= i < |frames| => frames[i].key)
  }

  /** The position of the first key equal to `key`, or -1 (never found for an absent key). */
  function KeyIndex(keys: seq<int>, key: Option<int>): (i: int)
    ensures -1 <= i < |keys|
    ensures 0 <= i ==> key == Some(keys[i]) && forall j :: 0 <= j < i ==> key != Some(keys[j])
    ensures i == -1 ==> forall j :: 0 <= j < |keys| ==> key != Some(keys[j])
  {
    if keys == [] then -1
    else if key == Some(keys[0]) then 0
    else
      var j := KeyIndex(keys[1..], key);
      if j == -1 then -1 else j + 1
  }

  /** `findIndexForFrameKey` and `getFramePropsIndex`: the index of the frame with this key, or -1. */
  function FrameIndex(frames: seq<Frame>, key: Option<int>): int
  {
    KeyIndex(Keys(frames), key)
  }

  function ActiveIndex(s: WindowState): int
  {
    FrameIndex(s.frames, s.activeFrameKey)
  }

  /** `getActiveFrame`: the frame whose key is the active key, if there is one. */
  function ActiveFrame(s: WindowState): Option<Frame>
  {
    var i := ActiveIndex(s);
    if 0 <= i then Some(s.frames[i]) else None
  }

  /** `frames.filter(frame => !frame.get('isPinned'))`. */
  function Unpinned(frames: seq<Frame>): (r: seq<Frame>)
    ensures forall f :: f in r <==> f in frames && !f.isPinned
    ensures |r| <= |frames|
  {
    if frames == [] then []
    else if frames[0].isPinned then Unpinned(frames[1..])
    else [frames[0]] + Unpinned(frames[1..])
  }

  /** Some frame is already pinned at this location (the `find` of `WINDOW_SET_PINNED`). */
  predicate HasPinnedAt(frames: seq<Frame>, location: string)
  {
    exists i :: 0 <= i < |frames| && frames[i].isPinned && frames[i].location == location
  }

  /** The largest frame key, starting from 0: `frames.reduce((m, f) => Math.max(m, f.key), 0)`. */
  function MaxKey(frames: seq<Frame>): (m: int)
    ensures 0 <= m
    ensures forall i :: 0 <= i < |frames| ==> frames[i].key <= m
    ensures m == 0 || exists i :: 0 <= i < |frames| && frames[i].key == m
  {
    if frames == [] then 0
    else
      var init := frames[..|frames| - 1];
      assert forall i :: 0 <= i < |init| ==> init[i] == frames[i];
      Max(MaxKey(init), frames[|frames| - 1].key)
  }

  // ---------------------------------------------------------------------------
  // Changes to one frame: the objects given to `mergeIn`/`setIn` on a frame path

  datatype FrameChange =
    | ReloadMark
    | WithUrl(url: string)
    | WithLocation(url: string)
    | WithInputLocation(url: string)
    | WithPreview(preview: Option<string>)
    | WithTitle(title: string)
    | WithFindbar(shown: bool)
    | WithLoading(loading: bool)
    | WithNavbarFocus(focused: bool)
    | WithUrlbarFocus(focused: bool)
    | WithSelection(selected: Option<bool>)
    | WithHistory(canGoBack: bool, canGoForward: bool)
    | WithDragging(dragging: bool)
    | WithHover(on: bool, leftHalf: bool, rightHalf: bool)
    | RightHalfCleared
    | WithSelectedIndex(index: Option<int>)
    | WithSuggestionList(list: seq<string>)
    | WithSearchResults(results: seq<string>)
    | WithThemeColor(color: Option<string>)
    | WithUrlbarActive(active: bool)
    | WithShortcut(shortcut: Option<string>)
    | WithFindDetail(detail: Option<string>)
    | WithPinned(pinned: bool)
    | WithMuted(muted: bool)
    | WithPlayback(playing: bool)
    | WithIcon(icon: Option<string>)

  function WithUrlbarOf(f: Frame, u: Urlbar): Frame
  {
    f.(navbar := f.navbar.(urlbar := u))
  }

  function WithSuggestionsOf(f: Frame, g: Suggestions): Frame
  {
    WithUrlbarOf(f, f.navbar.urlbar.(suggestions := g))
  }

  /** A change never touches the frame's key. */
  function Apply(f: Frame, c: FrameChange): (r: Frame)
    ensures r.key == f.key
  {
    match c
    case ReloadMark => f.(audioPlaybackActive := false, activeShortcut := Some("reload"))
    case WithUrl(url) => f.(src := url, location := url, audioPlaybackActive := false, title := "")
    case WithLocation(url) => f.(audioPlaybackActive := false, location := url)
    case WithInputLocation(url) => WithUrlbarOf(f, f.navbar.urlbar.(location := url))
    case WithPreview(preview) => WithUrlbarOf(f, f.navbar.urlbar.(urlPreview := preview))
    case WithTitle(title) => f.(title := title)
    case WithFindbar(shown) => f.(findbarShown := shown)
    case WithLoading(loading) => f.(loading := loading)
    case WithNavbarFocus(focused) => f.(navbar := f.navbar.(focused := focused))
    case WithUrlbarFocus(focused) => WithUrlbarOf(f, f.navbar.urlbar.(focused := focused))
    case WithSelection(selected) => WithUrlbarOf(f, f.navbar.urlbar.(selected := selected))
    case WithHistory(back, forward) => f.(canGoBack := back, canGoForward := forward)
    case WithDragging(dragging) => f.(tabIsDragging := dragging)
    case WithHover(on, left, right) =>
      f.(tabIsDraggingOn := on, tabIsDraggingOverLeftHalf := left, tabIsDraggingOverRightHalf := right)
    case RightHalfCleared => f.(tabIsDraggingOverRightHalf := false)
    case WithSelectedIndex(index) => WithSuggestionsOf(f, f.navbar.urlbar.suggestions.(selectedIndex := index))
    case WithSuggestionList(list) => WithSuggestionsOf(f, f.navbar.urlbar.suggestions.(suggestionList := list))
    case WithSearchResults(results) => WithSuggestionsOf(f, f.navbar.urlbar.suggestions.(suggestionResults := results))
    case WithThemeColor(color) => f.(themeColor := color)
    case WithUrlbarActive(active) => WithUrlbarOf(f, f.navbar.urlbar.(active := active))
    case WithShortcut(shortcut) => f.(activeShortcut := shortcut)
    case WithFindDetail(detail) => f.(findDetail := detail)
    case WithPinned(pinned) => f.(isPinned := pinned)
    case WithMuted(muted) => f.(audioMuted := muted)
    case WithPlayback(playing) => f.(audioPlaybackActive := playing)
    case WithIcon(icon) => f.(icon := icon)
  }

  /**
   * `setIn`/`mergeIn` at `['frames', i, ...]`. Immutable lists count a
   * negative index back from the end, so the index -1 of a missing frame
   * addresses the last frame.
   */
  function UpdateFrame(s: WindowState, i: int, c: FrameChange): WindowState
  {
    var j := if i < 0 then |s.frames| + i else i;
    if 0 <= j < |s.frames| then s.(frames := s.frames[j := Apply(s.frames[j], c)]) else s
  }

  /** A change to the active frame (`activeFrameStatePath()`). */
  function UpdateActive(s: WindowState, c: FrameChange): WindowState
  {
    UpdateFrame(s, ActiveIndex(s), c)
  }

  /** A change to the frame an action names by its `frameProps`. */
  function UpdateFrameOf(s: WindowState, frameProps: Frame, c: FrameChange): WindowState
  {
    UpdateFrame(s, FrameIndex(s.frames, Some(frameProps.key)), c)
  }

  /** A change to a present active frame rewrites that frame only, and the active frame stays where it was. */
  lemma UpdateActiveAt(s: WindowState, c: FrameChange)
    requires 0 <= ActiveIndex(s)
    ensures var i := ActiveIndex(s);
      && UpdateActive(s, c) == s.(frames := s.frames[i := Apply(s.frames[i], c)])
      && ActiveIndex(UpdateActive(s, c)) == i
  {
    UpdateFrameKeepsKeys(s, ActiveIndex(s), c);
  }

  lemma UpdateFrameKeepsKeys(s: WindowState, i: int, c: FrameChange)
    ensures var r := UpdateFrame(s, i, c);
      && Keys(r.frames) == Keys(s.frames)
      && r.(frames := s.frames) == s
  {
    var r := UpdateFrame(s, i, c);
    assert forall j :: 0 <= j < |s.frames| ==> r.frames[j].key == s.frames[j].key;
  }

  lemma UpdateFrameAt(s: WindowState, i: int, c: FrameChange)
    requires 0 <= i < |s.frames|
    ensures UpdateFrame(s, i, c) == s.(frames := s.frames[i := Apply(s.frames[i], c)])
  {
  }

  // ---------------------------------------------------------------------------
  // The module's helper steps

  /** `updateNavBarInput(loc)`: the active frame's urlbar shows `loc`, and its preview is cleared. */
  function NavBarInput(s: WindowState, url: string): WindowState
  {
    UpdateActive(UpdateActive(s, WithInputLocation(url)), WithPreview(None))
  }

  function WithTabPageIndex(s: WindowState, index: int): WindowState
  {
    s.(ui := s.ui.(tabs := s.ui.tabs.(tabPageIndex := Some(index))))
  }

  /**
   * `updateTabPageIndex(frameProps)`: the page of the tab strip that shows
   * `frameProps`. No frame (a `TypeError` in the source) or a pinned frame
   * changes nothing, and neither does the index -1.
   */
  function TabPageIndexFor(s: WindowState, frameProps: Option<Frame>, util: FrameStateUtil): WindowState
  {
    if frameProps.None? || frameProps.value.isPinned then s
    else
      var index := util.getFrameTabPageIndex(Unpinned(s.frames), frameProps.value);
      if index == -1 then s else WithTabPageIndex(s, index)
  }

  function WithDraggedTab(s: WindowState, tab: Option<Frame>): WindowState
  {
    s.(ui := s.ui.(tabs := s.ui.tabs.(activeDraggedTab := tab)))
  }

  /** What `action.false` (a property no action has) reads as on blur: `undefined`. */
  const BlurSelectionAsWritten: Option<bool> := None
  /** What the comment "selection should be cleared on blur" asks for. */
  const BlurSelection: Option<bool> := Some(false)

  /**
   * `WINDOW_SET_NAVBAR_FOCUSED`: the active frame's navbar and urlbar take
   * the focus value, and on blur the urlbar's selection becomes `cleared`.
   */
  function NavbarFocus(s: WindowState, focused: bool, cleared: Option<bool>): WindowState
  {
    var s1 := UpdateActive(UpdateActive(s, WithNavbarFocus(focused)), WithUrlbarFocus(focused));
    if !focused then UpdateActive(s1, WithSelection(cleared)) else s1
  }

  /** `WINDOW_TAB_MOVE`: take the source frame out and put it back next to the destination. */
  function MoveFrame(frames: seq<Frame>, source: Frame, destination: Frame, prepend: bool): seq<Frame>
  {
    var sourceIndex := FrameIndex(frames, Some(source.key));
    var newIndex := FrameIndex(frames, Some(destination.key)) + (if prepend then 0 else 1);
    var rest := Splice(frames, sourceIndex, 1, []);
    Splice(rest, if newIndex > sourceIndex then newIndex - 1 else newIndex, 0, [source])
  }

  /** The frame to close and whether it is the active one (`WINDOW_CLOSE_FRAME`). */
  function CloseFrameStep(s: WindowState, optFrameProps: Option<Frame>, util: FrameStateUtil): WindowState
  {
    var frameProps := if optFrameProps.Some? then optFrameProps else ActiveFrame(s);
    if frameProps.None? then s
    else
      var f := frameProps.value;
      var closingActive := optFrameProps.None? || optFrameProps == ActiveFrame(s);
      var index := FrameIndex(s.frames, Some(f.key));
      var s1 := Merge(s, util.removeFrame(s.frames, s.closedFrames, f.(closedAtIndex := Some(index)), f.key));
      if closingActive then TabPageIndexFor(s1, ActiveFrame(s1), util) else s1
  }

  /** JavaScript truthiness of a frame key: absent and 0 are falsy. */
  predicate IsTruthyKey(key: Option<int>)
  {
    key.Some? && key.value != 0
  }

  // ---------------------------------------------------------------------------
  // Actions and the reducer

  /** The window actions `doAction` handles, named after their `WindowConstants`. */
  datatype Action =
    | SetState(windowState: WindowState)
    | SetUrl(location: string)
    | SetLocation(key: Option<int>, location: string)
    | SetNavbarInput(location: string)
    | SetFrameTitle(frameProps: Frame, title: string)
    | SetFindbarShown(frameProps: Frame, shown: bool)
    | WebviewLoadStart(frameProps: Frame)
    | WebviewLoadEnd(frameProps: Frame)
    | SetNavbarFocused(focused: bool)
    | NewFrame(frameOpts: FrameOpts, openInForeground: bool)
    | CloseFrame(optFrameProps: Option<Frame>)
    | UndoClosedFrame
    | SetActiveFrame(frameProps: Frame)
    | SetTabPageIndex(index: Option<int>, pageFrameProps: Option<Frame>)
    | UpdateBackForward(frameProps: Frame, canGoBack: bool, canGoForward: bool)
    | TabDragStart(frameProps: Frame)
    | TabDragStop(frameProps: Frame)
    | TabDraggingOverLeft(frameProps: Frame)
    | TabDraggingOverRight(frameProps: Frame)
    | TabDragExit(frameProps: Frame)
    | TabDragExitRight(frameProps: Frame)
    | TabDraggingOn(frameProps: Frame)
    | TabMove(sourceFrameProps: Frame, destinationFrameProps: Frame, prepend: bool)
    | SetUrlBarSuggestions(selectedIndex: Option<int>, suggestionList: seq<string>)
    | SetUrlBarPreview(value: Option<string>)
    | SetUrlBarSuggestionSearchResults(searchResults: seq<string>)
    | SetThemeColor(themeColor: Option<string>)
    | SetUrlBarActive(isActive: bool)
    | SetUrlBarSelected(selected: bool)
    | SetActiveFrameShortcut(activeShortcut: Option<string>)
    | SetSearchDetail(searchDetail: Option<string>)
    | SetFindDetail(frameProps: Frame, findDetail: Option<string>)
    | SetPinned(frameProps: Frame, isPinned: bool)
    | SetAudioMuted(frameProps: Frame, muted: bool)
    | SetAudioPlaybackActive(frameProps: Frame, audioPlaybackActive: bool)
    | SetFavicon(frameProps: Frame, favicon: Option<string>)
    | SetMouseInTitlebar(mouseInTitlebar: bool)
    | Unknown(actionType: string)

  /** The actions whose whole effect is one merge into the frame named by `frameProps`: that frame and the merged object. */
  function FrameMergeOf(action: Action): Option<(Frame, FrameChange)>
  {
    match action
    case SetFrameTitle(fp, title) => Some((fp, WithTitle(title)))
    case SetFindbarShown(fp, shown) => Some((fp, WithFindbar(shown)))
    case WebviewLoadStart(fp) => Some((fp, WithLoading(true)))
    case WebviewLoadEnd(fp) => Some((fp, WithLoading(false)))
    case UpdateBackForward(fp, back, forward) => Some((fp, WithHistory(back, forward)))
    case TabDraggingOverLeft(fp) => Some((fp, WithHover(false, true, false)))
    case TabDraggingOverRight(fp) => Some((fp, WithHover(false, false, true)))
    case TabDragExit(fp) => Some((fp, WithHover(false, false, false)))
    case TabDragExitRight(fp) => Some((fp, RightHalfCleared))
    case TabDraggingOn(fp) => Some((fp, WithHover(true, false, false)))
    case SetFindDetail(fp, detail) => Some((fp, WithFindDetail(detail)))
    case SetAudioMuted(fp, muted) => Some((fp, WithMuted(muted)))
    case SetAudioPlaybackActive(fp, playing) => Some((fp, WithPlayback(playing)))
    case SetFavicon(fp, icon) => Some((fp, WithIcon(icon)))
    case _ => None
  }

  /** The actions whose whole effect is one change to the active frame: the change. */
  function ActiveMergeOf(action: Action): Option<FrameChange>
  {
    match action
    case SetUrlBarPreview(value) => Some(WithPreview(value))
    case SetUrlBarSuggestionSearchResults(results) => Some(WithSearchResults(results))
    case SetThemeColor(color) => Some(WithThemeColor(color))
    case SetUrlBarActive(isActive) => Some(WithUrlbarActive(isActive))
    case SetActiveFrameShortcut(shortcut) => Some(WithShortcut(shortcut))
    case _ => None
  }

  /** The actions that rewrite the active frame's location, navbar or urlbar in several steps. */
  predicate UpdatesUrlbar(action: Action)
  {
    || action.SetUrl? || action.SetLocation? || action.SetNavbarInput? || action.SetNavbarFocused?
    || action.SetUrlBarSuggestions? || action.SetUrlBarSelected?
  }

  /** The actions that replace the state or change the frame list or the active frame. */
  predicate ChangesFrameList(action: Action)
  {
    || action.SetState? || action.NewFrame? || action.CloseFrame? || action.UndoClosedFrame?
    || action.SetActiveFrame? || action.SetTabPageIndex?
  }

  /** The actions that change the tab strip's drag state or frame order, the other window fields, and unknown ones. */
  predicate ChangesTabStrip(action: Action)
  {
    || action.TabDragStart? || action.TabDragStop? || action.TabMove? || action.SetSearchDetail?
    || action.SetMouseInTitlebar? || action.Unknown?
  }

  /** The reducer's new `currentKey`: only a new state and a new frame move it. */
  function NextKey(currentKey: int, action: Action): int
  {
    match action
    case SetState(w) => MaxKey(w.frames)
    case NewFrame(_, _) => currentKey + 1
    case _ => currentKey
  }

  /** The cases of `doAction` that rewrite the active frame's location, navbar and urlbar in several steps. */
  function UrlbarStep(s: WindowState, action: Action): WindowState
    requires UpdatesUrlbar(action)
  {
    match action
    case SetUrl(url) =>
      var active := ActiveFrame(s);
      if active.None? then s
      else if active.value.src == url then UpdateActive(s, ReloadMark)
      else UpdateActive(s, WithUrl(url))
    case SetLocation(key, url) =>
      var target := if IsTruthyKey(key) then key else s.activeFrameKey;
      var s1 := UpdateFrame(s, FrameIndex(s.frames, target), WithLocation(url));
      if target == s1.activeFrameKey then NavBarInput(s1, url) else s1
    case SetNavbarInput(url) => NavBarInput(s, url)
    case SetNavbarFocused(focused) => NavbarFocus(s, focused, BlurSelection)
    case SetUrlBarSuggestions(index, list) =>
      UpdateActive(UpdateActive(s, WithSelectedIndex(index)), WithSuggestionList(list))
    case SetUrlBarSelected(selected) =>
      var s1 := UpdateActive(s, WithSelection(Some(selected)));
      if selected then UpdateActive(s1, WithUrlbarFocus(true)) else s1
  }

  /** The cases of `doAction` that replace the state or change the frame list or the active frame. */
  function FrameListStep(s: WindowState, currentKey: int, action: Action, util: FrameStateUtil): WindowState
    requires ChangesFrameList(action)
  {
    match action
    case SetState(w) => w
    case NewFrame(opts, openInForeground) =>
      var nextKey := currentKey + 1;
      var s1 := Merge(s, util.addFrame(s.frames, opts, nextKey, if openInForeground then Some(nextKey) else s.activeFrameKey));
      if openInForeground then TabPageIndexFor(s1, ActiveFrame(s1), util) else s1
    case CloseFrame(optFp) => CloseFrameStep(s, optFp, util)
    case UndoClosedFrame => Merge(s, util.undoCloseFrame(s, s.closedFrames))
    case SetActiveFrame(fp) => TabPageIndexFor(s.(activeFrameKey := Some(fp.key)), Some(fp), util)
    case SetTabPageIndex(index, optFp) =>
      if index.Some? then WithTabPageIndex(s, index.value) else TabPageIndexFor(s, optFp, util)
  }

  /** The cases of `doAction` that change the tab strip's drag state or frame order, or other window fields. */
  function TabStripStep(s: WindowState, action: Action): WindowState
    requires ChangesTabStrip(action)
  {
    match action
    case TabDragStart(fp) => WithDraggedTab(UpdateFrameOf(s, fp, WithDragging(true)), Some(fp))
    case TabDragStop(fp) => WithDraggedTab(UpdateFrameOf(s, fp, WithDragging(false)), None)
    case TabMove(source, destination, prepend) => s.(frames := MoveFrame(s.frames, source, destination, prepend))
    case SetSearchDetail(detail) => s.(searchDetail := detail)
    case SetMouseInTitlebar(inside) => s.(ui := s.ui.(mouseInTitlebar := inside))
    case Unknown(_) => s
  }

  /**
   * The reducer's new window state after one action. `WINDOW_SET_PINNED` for
   * a location that is already pinned re-enters the reducer as
   * `WINDOW_CLOSE_FRAME` and then `WINDOW_SET_ACTIVE_FRAME` for the same frame.
   */
  function ReduceState(s: WindowState, currentKey: int, action: Action, util: FrameStateUtil): WindowState
  {
    var frameMerge := FrameMergeOf(action);
    var activeMerge := ActiveMergeOf(action);
    if frameMerge.Some? then UpdateFrameOf(s, frameMerge.value.0, frameMerge.value.1)
    else if activeMerge.Some? then UpdateActive(s, activeMerge.value)
    else if action.SetPinned? then
      var fp := action.frameProps;
      if HasPinnedAt(s.frames, fp.location) && action.isPinned then
        FrameListStep(FrameListStep(s, currentKey, CloseFrame(Some(fp)), util), currentKey, SetActiveFrame(fp), util)
      else UpdateFrameOf(s, fp, WithPinned(action.isPinned))
    else if UpdatesUrlbar(action) then UrlbarStep(s, action)
    else if ChangesFrameList(action) then FrameListStep(s, currentKey, action, util)
    else TabStripStep(s, action)
  }

  // ---------------------------------------------------------------------------
  // Properties of the reducer

  lemma KeysConcat(a: seq<Frame>, b: seq<Frame>)
    ensures Keys(a + b) == Keys(a) + Keys(b)
  {
  }

  /** The frame at the index `FrameIndex` finds carries the key looked for. */
  lemma FrameIndexKey(frames: seq<Frame>, key: int)
    ensures var i := FrameIndex(frames, Some(key));
      0 <= i ==> i < |frames| && frames[i].key == key
  {
    var i := FrameIndex(frames, Some(key));
    if 0 <= i {
      assert Keys(frames)[i] == frames[i].key;
    }
  }

  lemma KeysSplice(s: seq<Frame>, index: int, removeNum: nat, values: seq<Frame>)
    ensures Keys(Splice(s, index, removeNum, values)) == Splice(Keys(s), index, removeNum, Keys(values))
  {
    var b := Clamp(index, |s|);
    var e := Min(b + removeNum, |s|);
    KeysConcat(s[..b], values);
    KeysConcat(s[..b] + values, s[e..]);
    assert Keys(s[..b]) == Keys(s)[..b];
    assert Keys(s[e..]) == Keys(s)[e..];
  }

  /** The frame list after a move, with the two indices named. */
  lemma MoveFrameIsMoved(frames: seq<Frame>, source: Frame, destination: Frame, prepend: bool)
    ensures MoveFrame(frames, source, destination, prepend)
      == Moved(frames, FrameIndex(frames, Some(source.key)), FrameIndex(frames, Some(destination.key)) + (if prepend then 0 else 1), source)
  {
  }

  /**
   * `WINDOW_TAB_MOVE` between two different frames that are both present:
   * the number of frames is unchanged, the other frames keep their relative
   * order, and the source ends immediately before the destination when
   * `prepend` is set and immediately after it otherwise.
   */
  lemma MoveFramePlacement(frames: seq<Frame>, source: Frame, destination: Frame, prepend: bool)
    requires 0 <= FrameIndex(frames, Some(source.key)) && 0 <= FrameIndex(frames, Some(destination.key))
    requires source.key != destination.key
    ensures PlacedNextTo(MoveFrame(frames, source, destination, prepend), frames,
      FrameIndex(frames, Some(source.key)), FrameIndex(frames, Some(destination.key)), source, prepend)
  {
    var si := FrameIndex(frames, Some(source.key));
    var di := FrameIndex(frames, Some(destination.key));
    FrameIndexKey(frames, source.key);
    FrameIndexKey(frames, destination.key);
    MoveFrameIsMoved(frames, source, destination, prepend);
    MovedPlacement(frames, si, di, source, prepend);
  }

  /** `WINDOW_TAB_MOVE` of a frame onto itself leaves the list as it was. */
  lemma MoveFrameOntoItself(frames: seq<Frame>, source: Frame, prepend: bool)
    requires 0 <= FrameIndex(frames, Some(source.key))
    requires frames[FrameIndex(frames, Some(source.key))] == source
    ensures MoveFrame(frames, source, source, prepend) == frames
  {
    MoveFrameIsMoved(frames, source, source, prepend);
    MovedOntoItself(frames, FrameIndex(frames, Some(source.key)), prepend);
  }

  /**
   * `WINDOW_TAB_MOVE` of a frame that is present neither adds, drops nor
   * duplicates a key, and when the source is the listed frame itself the
   * new list is a permutation of the old one.
   */
  lemma MoveFrameKeys(frames: seq<Frame>, source: Frame, destination: Frame, prepend: bool)
    requires 0 <= FrameIndex(frames, Some(source.key))
    ensures multiset(Keys(MoveFrame(frames, source, destination, prepend))) == multiset(Keys(frames))
    ensures frames[FrameIndex(frames, Some(source.key))] == source ==>
      multiset(MoveFrame(frames, source, destination, prepend)) == multiset(frames)
  {
    var si := FrameIndex(frames, Some(source.key));
    FrameIndexKey(frames, source.key);
    var newIndex := FrameIndex(frames, Some(destination.key)) + (if prepend then 0 else 1);
    MoveFrameIsMoved(frames, source, destination, prepend);
    KeysMoved(frames, si, newIndex, source);
    MovedPermutation(Keys(frames), si, newIndex);
    if frames[si] == source {
      MovedPermutation(frames, si, newIndex);
    }
  }

  /** The keys of a moved frame list are the moved keys, when the frame put back has the key taken out. */
  lemma KeysMoved(frames: seq<Frame>, si: int, newIndex: int, source: Frame)
    requires 0 <= si < |frames| && frames[si].key == source.key
    ensures Keys(Moved(frames, si, newIndex, source)) == Moved(Keys(frames), si, newIndex, Keys(frames)[si])
  {
    var ni := if newIndex > si then newIndex - 1 else newIndex;
    KeysSplice(frames, si, 1, []);
    KeysSplice(Splice(frames, si, 1, []), ni, 0, [source]);
    assert Keys([source]) == [source.key];
    assert Keys([]) == [];
    assert Keys(frames)[si] == source.key;
  }

  /** Every step of the urlbar cases rewrites frames in place, so the keys stay as they were. */
  lemma UrlbarStepKeepsKeys(s: WindowState, action: Action)
    requires UpdatesUrlbar(action)
    ensures var r := UrlbarStep(s, action);
      Keys(r.frames) == Keys(s.frames) && r.activeFrameKey == s.activeFrameKey
  {
    match action
    case SetUrl(url) =>
      UpdateFrameKeepsKeys(s, ActiveIndex(s), ReloadMark);
      UpdateFrameKeepsKeys(s, ActiveIndex(s), WithUrl(url));
    case SetLocation(key, url) =>
      var target := if IsTruthyKey(key) then key else s.activeFrameKey;
      var s1 := UpdateFrame(s, FrameIndex(s.frames, target), WithLocation(url));
      UpdateFrameKeepsKeys(s, FrameIndex(s.frames, target), WithLocation(url));
      NavBarInputKeepsKeys(s1, url);
    case SetNavbarInput(url) =>
      NavBarInputKeepsKeys(s, url);
    case SetNavbarFocused(focused) =>
      NavbarFocusKeepsKeys(s, focused, BlurSelection);
    case SetUrlBarSuggestions(index, list) =>
      var s1 := UpdateActive(s, WithSelectedIndex(index));
      UpdateFrameKeepsKeys(s, ActiveIndex(s), WithSelectedIndex(index));
      UpdateFrameKeepsKeys(s1, ActiveIndex(s1), WithSuggestionList(list));
    case SetUrlBarSelected(selected) =>
      var s1 := UpdateActive(s, WithSelection(Some(selected)));
      UpdateFrameKeepsKeys(s, ActiveIndex(s), WithSelection(Some(selected)));
      UpdateFrameKeepsKeys(s1, ActiveIndex(s1), WithUrlbarFocus(true));
  }

  lemma NavBarInputKeepsKeys(s: WindowState, url: string)
    ensures var r := NavBarInput(s, url);
      Keys(r.frames) == Keys(s.frames) && r.activeFrameKey == s.activeFrameKey
  {
    var s1 := UpdateActive(s, WithInputLocation(url));
    UpdateFrameKeepsKeys(s, ActiveIndex(s), WithInputLocation(url));
    UpdateFrameKeepsKeys(s1, ActiveIndex(s1), WithPreview(None));
  }

  lemma NavbarFocusKeepsKeys(s: WindowState, focused: bool, cleared: Option<bool>)
    ensures var r := NavbarFocus(s, focused, cleared);
      Keys(r.frames) == Keys(s.frames) && r.activeFrameKey == s.activeFrameKey
  {
    var s1 := UpdateActive(s, WithNavbarFocus(focused));
    var s2 := UpdateActive(s1, WithUrlbarFocus(focused));
    UpdateFrameKeepsKeys(s, ActiveIndex(s), WithNavbarFocus(focused));
    UpdateFrameKeepsKeys(s1, ActiveIndex(s1), WithUrlbarFocus(focused));
    UpdateFrameKeepsKeys(s2, ActiveIndex(s2), WithSelection(cleared));
  }

  lemma ReduceFrameMerge(s: WindowState, k: int, action: Action, util: FrameStateUtil)
    requires FrameMergeOf(action).Some?
    ensures ReduceState(s, k, action, util) == UpdateFrameOf(s, FrameMergeOf(action).value.0, FrameMergeOf(action).value.1)
  {
  }

  lemma ReduceUrlbar(s: WindowState, k: int, action: Action, util: FrameStateUtil)
    requires UpdatesUrlbar(action)
    ensures ReduceState(s, k, action, util) == UrlbarStep(s, action)
  {
    assert FrameMergeOf(action) == None && ActiveMergeOf(action) == None;
  }

  lemma ReduceTabStrip(s: WindowState, k: int, action: Action, util: FrameStateUtil)
    requires ChangesTabStrip(action)
    ensures ReduceState(s, k, action, util) == TabStripStep(s, action)
  {
    assert FrameMergeOf(action) == None && ActiveMergeOf(action) == None;
  }

  /**
   * The actions that do not hand the frame list to frameStateUtil or replace
   * the whole state neither add, drop nor duplicate a frame key. A tab move
   * needs its source frame to be present: Immutable's `splice(-1, 1)` would
   * drop the last frame instead.
   */
  lemma KeysPreserved(s: WindowState, k: int, action: Action, util: FrameStateUtil)
    requires !ChangesFrameList(action)
    requires action.SetPinned? ==> !(HasPinnedAt(s.frames, action.frameProps.location) && action.isPinned)
    requires action.TabMove? ==> 0 <= FrameIndex(s.frames, Some(action.sourceFrameProps.key))
    ensures multiset(Keys(ReduceState(s, k, action, util).frames)) == multiset(Keys(s.frames))
  {
    var frameMerge := FrameMergeOf(action);
    var activeMerge := ActiveMergeOf(action);
    if frameMerge.Some? {
      UpdateFrameKeepsKeys(s, FrameIndex(s.frames, Some(frameMerge.value.0.key)), frameMerge.value.1);
    } else if activeMerge.Some? {
      UpdateFrameKeepsKeys(s, ActiveIndex(s), activeMerge.value);
    } else if action.SetPinned? {
      UpdateFrameKeepsKeys(s, FrameIndex(s.frames, Some(action.frameProps.key)), WithPinned(action.isPinned));
    } else if UpdatesUrlbar(action) {
      UrlbarStepKeepsKeys(s, action);
    } else {
      match action
      case TabDragStart(fp) => UpdateFrameKeepsKeys(s, FrameIndex(s.frames, Some(fp.key)), WithDragging(true));
      case TabDragStop(fp) => UpdateFrameKeepsKeys(s, FrameIndex(s.frames, Some(fp.key)), WithDragging(false));
      case TabMove(source, destination, prepend) => MoveFrameKeys(s.frames, source, destination, prepend);
      case SetSearchDetail(_) =>
      case SetMouseInTitlebar(_) =>
      case Unknown(_) =>
    }
  }

  /**
   * `WINDOW_SET_STATE` sets `currentKey` to the largest key (0 with no
   * frames), so the key the next `WINDOW_NEW_FRAME` hands to `addFrame`
   * exceeds every key of the new state.
   */
  lemma NewFrameKeyIsFresh(s: WindowState, k: int, w: WindowState, opts: FrameOpts, openInForeground: bool, util: FrameStateUtil)
    ensures ReduceState(s, k, SetState(w), util) == w
    ensures var k1 := NextKey(k, SetState(w));
      var k2 := NextKey(k1, NewFrame(opts, openInForeground));
      && k2 == k1 + 1
      && (w.frames == [] ==> k2 == 1)
      && forall i :: 0 <= i < |w.frames| ==> w.frames[i].key < k2
  {
  }

  /**
   * `WINDOW_SET_URL`: loading the active frame's own `src` only marks a
   * reload and stops audio; any other location sets `src` and `location`,
   * clears the title and stops audio. Without an active frame the source
   * throws and the state stays as it was.
   */
  lemma SetUrlRule(s: WindowState, k: int, url: string, util: FrameStateUtil)
    ensures var r := ReduceState(s, k, SetUrl(url), util);
      var i := ActiveIndex(s);
      if i < 0 then r == s
      else
        var f := s.frames[i];
        r == s.(frames := s.frames[i := if f.src == url
          then f.(audioPlaybackActive := false, activeShortcut := Some("reload"))
          else f.(src := url, location := url, audioPlaybackActive := false, title := "")])
  {
    ReduceUrlbar(s, k, SetUrl(url), util);
  }

  /**
   * `updateNavBarInput(loc)` with an active frame: its urlbar shows `loc`
   * with the preview cleared, and nothing else changes.
   */
  lemma NavBarInputEffect(s: WindowState, url: string)
    requires 0 <= ActiveIndex(s)
    ensures var i := ActiveIndex(s);
      var f := s.frames[i];
      NavBarInput(s, url) == s.(frames := s.frames[i := WithUrlbarOf(f, f.navbar.urlbar.(location := url, urlPreview := None))])
  {
    var i := ActiveIndex(s);
    var s1 := UpdateActive(s, WithInputLocation(url));
    UpdateFrameAt(s, i, WithInputLocation(url));
    UpdateFrameKeepsKeys(s, i, WithInputLocation(url));
    assert ActiveIndex(s1) == i;
    UpdateFrameAt(s1, i, WithPreview(None));
  }

  /** `WINDOW_SET_NAVBAR_INPUT` is `updateNavBarInput` on the active frame. */
  lemma SetNavbarInputRule(s: WindowState, k: int, url: string, util: FrameStateUtil)
    requires 0 <= ActiveIndex(s)
    ensures var i := ActiveIndex(s);
      var f := s.frames[i];
      ReduceState(s, k, SetNavbarInput(url), util)
        == s.(frames := s.frames[i := WithUrlbarOf(f, f.navbar.urlbar.(location := url, urlPreview := None))])
  {
    ReduceUrlbar(s, k, SetNavbarInput(url), util);
    NavBarInputEffect(s, url);
  }

  /** The frame-level change behind `WINDOW_SET_LOCATION`: the location is set and audio stops, then the urlbar may be rewritten. */
  lemma LocationChange(f: Frame, url: string, urlbar: Urlbar)
    ensures var f1 := Apply(f, WithLocation(url));
      && f1 == WithUrlbarOf(f1, f.navbar.urlbar)
      && WithUrlbarOf(f1, urlbar) == f.(audioPlaybackActive := false, location := url, navbar := f.navbar.(urlbar := urlbar))
  {
  }

  lemma SetLocationEffect(s: WindowState, key: Option<int>, url: string)
    ensures var target := if IsTruthyKey(key) then key else s.activeFrameKey;
      var i := FrameIndex(s.frames, target);
      0 <= i ==>
        var f := s.frames[i];
        var urlbar := if target == s.activeFrameKey then f.navbar.urlbar.(location := url, urlPreview := None) else f.navbar.urlbar;
        UrlbarStep(s, SetLocation(key, url))
          == s.(frames := s.frames[i := f.(audioPlaybackActive := false, location := url, navbar := f.navbar.(urlbar := urlbar))])
  {
    var target := if IsTruthyKey(key) then key else s.activeFrameKey;
    var i := FrameIndex(s.frames, target);
    if 0 <= i {
      var s1 := UpdateFrame(s, i, WithLocation(url));
      UpdateFrameAt(s, i, WithLocation(url));
      UpdateFrameKeepsKeys(s, i, WithLocation(url));
      var f := s.frames[i];
      if target == s.activeFrameKey {
        assert ActiveIndex(s1) == i;
        NavBarInputEffect(s1, url);
        var urlbar := f.navbar.urlbar.(location := url, urlPreview := None);
        LocationChange(f, url, urlbar);
        assert s1.frames[i := WithUrlbarOf(s1.frames[i], urlbar)] == s.frames[i := WithUrlbarOf(s1.frames[i], urlbar)];
      } else {
        LocationChange(f, url, f.navbar.urlbar);
      }
    }
  }

  /**
   * `WINDOW_SET_LOCATION` targets `action.key`, or the active frame when the
   * key is falsy: that frame gets the location and stops audio, and its urlbar
   * shows the location with the preview cleared exactly when it is the active
   * frame. No other frame and nothing else changes.
   */
  lemma SetLocationRule(s: WindowState, k: int, key: Option<int>, url: string, util: FrameStateUtil)
    ensures var target := if IsTruthyKey(key) then key else s.activeFrameKey;
      var i := FrameIndex(s.frames, target);
      0 <= i ==>
        var f := s.frames[i];
        var urlbar := if target == s.activeFrameKey then f.navbar.urlbar.(location := url, urlPreview := None) else f.navbar.urlbar;
        ReduceState(s, k, SetLocation(key, url), util)
          == s.(frames := s.frames[i := f.(audioPlaybackActive := false, location := url, navbar := f.navbar.(urlbar := urlbar))])
  {
    ReduceUrlbar(s, k, SetLocation(key, url), util);
    SetLocationEffect(s, key, url);
  }

  /** The frame-level change behind a focus step of `NavbarFocus`: the navbar, then the urlbar, take the focus value. */
  lemma FocusChanges(f: Frame, focused: bool)
    ensures Apply(Apply(f, WithNavbarFocus(focused)), WithUrlbarFocus(focused))
      == f.(navbar := f.navbar.(focused := focused, urlbar := f.navbar.urlbar.(focused := focused)))
  {
  }

  /** The frame-level change behind the blur step of `NavbarFocus`: the urlbar's selection takes the new value. */
  lemma SelectionChange(f: Frame, selected: Option<bool>)
    ensures Apply(f, WithSelection(selected)) == f.(navbar := f.navbar.(urlbar := f.navbar.urlbar.(selected := selected)))
  {
  }

  /** `NavbarFocus` on a present active frame changes that frame's navbar and urlbar and nothing else. */
  lemma NavbarFocusEffect(s: WindowState, focused: bool, cleared: Option<bool>)
    requires 0 <= ActiveIndex(s)
    ensures var i := ActiveIndex(s);
      var f := s.frames[i];
      var selected := if focused then f.navbar.urlbar.selected else cleared;
      NavbarFocus(s, focused, cleared)
        == s.(frames := s.frames[i := f.(navbar := f.navbar.(focused := focused, urlbar := f.navbar.urlbar.(focused := focused, selected := selected)))])
  {
    var i := ActiveIndex(s);
    UpdateActiveAt(s, WithNavbarFocus(focused));
    var s1 := UpdateActive(s, WithNavbarFocus(focused));
    UpdateActiveAt(s1, WithUrlbarFocus(focused));
    var s2 := UpdateActive(s1, WithUrlbarFocus(focused));
    FocusChanges(s.frames[i], focused);
    assert s2.frames == s.frames[i := s2.frames[i]];
    if !focused {
      UpdateActiveAt(s2, WithSelection(cleared));
      SelectionChange(s2.frames[i], cleared);
      assert UpdateActive(s2, WithSelection(cleared)).frames == s.frames[i := Apply(s2.frames[i], WithSelection(cleared))];
    }
  }

  /**
   * `WINDOW_SET_NAVBAR_FOCUSED` on the active frame: the navbar and the urlbar
   * take the focus value, and a blur clears the urlbar's selection to `false`.
   */
  lemma NavbarFocusRule(s: WindowState, k: int, focused: bool, util: FrameStateUtil)
    requires 0 <= ActiveIndex(s)
    ensures var i := ActiveIndex(s);
      var f := s.frames[i];
      var selected := if focused then f.navbar.urlbar.selected else Some(false);
      ReduceState(s, k, SetNavbarFocused(focused), util)
        == s.(frames := s.frames[i := f.(navbar := f.navbar.(focused := focused, urlbar := f.navbar.urlbar.(focused := focused, selected := selected)))])
  {
    ReduceUrlbar(s, k, SetNavbarFocused(focused), util);
    NavbarFocusEffect(s, focused, BlurSelection);
  }

  /** As written, a blur sets the active frame's urlbar selection to `undefined` (`action.false`), not to `false`. */
  lemma BlurLeavesSelectionUndefinedAsWritten(s: WindowState)
    requires 0 <= ActiveIndex(s)
    ensures NavbarFocus(s, false, BlurSelectionAsWritten).frames[ActiveIndex(s)].navbar.urlbar.selected == None
    ensures NavbarFocus(s, false, BlurSelectionAsWritten) != NavbarFocus(s, false, BlurSelection)
  {
    NavbarFocusEffect(s, false, BlurSelectionAsWritten);
    NavbarFocusEffect(s, false, BlurSelection);
    var i := ActiveIndex(s);
    assert NavbarFocus(s, false, BlurSelection).frames[i].navbar.urlbar.selected == Some(false);
  }

  /** The five hover actions, which only touch the named frame's hover flags. */
  predicate IsHoverAction(action: Action)
  {
    || action.TabDraggingOverLeft? || action.TabDraggingOverRight? || action.TabDraggingOn?
    || action.TabDragExit? || action.TabDragExitRight?
  }

  /** The change a hover action makes to the frame it names. */
  function HoverChangeOf(action: Action): FrameChange
  {
    if action.TabDragExitRight? then RightHalfCleared
    else WithHover(action.TabDraggingOn?, action.TabDraggingOverLeft?, action.TabDraggingOverRight?)
  }

  lemma HoverMerge(action: Action)
    requires IsHoverAction(action)
    ensures FrameMergeOf(action) == Some((action.frameProps, HoverChangeOf(action)))
  {
  }

  lemma HoverChange(f: Frame, action: Action)
    ensures var keep := action.TabDragExitRight?;
      Apply(f, HoverChangeOf(action)) == f.(
        tabIsDraggingOn := if keep then f.tabIsDraggingOn else action.TabDraggingOn?,
        tabIsDraggingOverLeftHalf := if keep then f.tabIsDraggingOverLeftHalf else action.TabDraggingOverLeft?,
        tabIsDraggingOverRightHalf := action.TabDraggingOverRight?)
  {
  }

  /** A hover action's change to the frame it names, before the reducer is involved. */
  lemma HoverEffect(s: WindowState, fp: Frame, action: Action)
    requires 0 <= FrameIndex(s.frames, Some(fp.key))
    ensures var i := FrameIndex(s.frames, Some(fp.key));
      var f := s.frames[i];
      var keep := action.TabDragExitRight?;
      UpdateFrameOf(s, fp, HoverChangeOf(action)) == s.(frames := s.frames[i := f.(
        tabIsDraggingOn := if keep then f.tabIsDraggingOn else action.TabDraggingOn?,
        tabIsDraggingOverLeftHalf := if keep then f.tabIsDraggingOverLeftHalf else action.TabDraggingOverLeft?,
        tabIsDraggingOverRightHalf := action.TabDraggingOverRight?)])
  {
    var i := FrameIndex(s.frames, Some(fp.key));
    UpdateFrameAt(s, i, HoverChangeOf(action));
    HoverChange(s.frames[i], action);
  }

  /**
   * `TAB_DRAGGING_OVER_LEFT`, `_OVER_RIGHT` and `_ON` each set the one hover
   * flag of the named frame they are about and clear the other two;
   * `TAB_DRAG_EXIT` clears all three and `TAB_DRAG_EXIT_RIGHT` only the
   * right-half one. Nothing else changes.
   */
  lemma HoverFlagRules(s: WindowState, k: int, action: Action, util: FrameStateUtil)
    requires IsHoverAction(action)
    requires 0 <= FrameIndex(s.frames, Some(action.frameProps.key))
    ensures var i := FrameIndex(s.frames, Some(action.frameProps.key));
      var f := s.frames[i];
      var keep := action.TabDragExitRight?;
      s.(frames := s.frames[i := f.(
        tabIsDraggingOn := if keep then f.tabIsDraggingOn else action.TabDraggingOn?,
        tabIsDraggingOverLeftHalf := if keep then f.tabIsDraggingOverLeftHalf else action.TabDraggingOverLeft?,
        tabIsDraggingOverRightHalf := action.TabDraggingOverRight?)]) == ReduceState(s, k, action, util)
  {
    HoverMerge(action);
    ReduceFrameMerge(s, k, action, util);
    HoverEffect(s, action.frameProps, action);
  }

  /**
   * `TAB_DRAG_START` marks the named frame as dragging and records it as the
   * dragged tab; `TAB_DRAG_STOP` clears both. Nothing else changes.
   */
  lemma DragStartStopRules(s: WindowState, k: int, action: Action, util: FrameStateUtil)
    requires action.TabDragStart? || action.TabDragStop?
    requires 0 <= FrameIndex(s.frames, Some(action.frameProps.key))
    ensures var i := FrameIndex(s.frames, Some(action.frameProps.key));
      var start := action.TabDragStart?;
      s.(frames := s.frames[i := s.frames[i].(tabIsDragging := start)],
        ui := s.ui.(tabs := s.ui.tabs.(activeDraggedTab := if start then Some(action.frameProps) else None)))
        == ReduceState(s, k, action, util)
  {
    ReduceTabStrip(s, k, action, util);
    DragEffect(s, action.frameProps, action.TabDragStart?);
  }

  /** The tab-strip step of `TAB_DRAG_START` and `TAB_DRAG_STOP`, before the reducer is involved. */
  lemma DragEffect(s: WindowState, fp: Frame, start: bool)
    requires 0 <= FrameIndex(s.frames, Some(fp.key))
    ensures var i := FrameIndex(s.frames, Some(fp.key));
      WithDraggedTab(UpdateFrameOf(s, fp, WithDragging(start)), if start then Some(fp) else None)
        == s.(frames := s.frames[i := s.frames[i].(tabIsDragging := start)],
              ui := s.ui.(tabs := s.ui.tabs.(activeDraggedTab := if start then Some(fp) else None)))
  {
    UpdateFrameAt(s, FrameIndex(s.frames, Some(fp.key)), WithDragging(start));
  }

  /**
   * An action addressed to a frame that is no longer in the list rewrites the
   * last frame instead, since the index -1 counts back from the end.
   */
  lemma MissingFrameHitsLastFrame(s: WindowState, k: int, action: Action, util: FrameStateUtil)
    requires FrameMergeOf(action).Some?
    requires FrameIndex(s.frames, Some(FrameMergeOf(action).value.0.key)) == -1
    requires s.frames != []
    ensures var n := |s.frames| - 1;
      ReduceState(s, k, action, util) == s.(frames := s.frames[n := Apply(s.frames[n], FrameMergeOf(action).value.1)])
  {
  }

  lemma ReduceFrameList(s: WindowState, k: int, action: Action, util: FrameStateUtil)
    requires ChangesFrameList(action)
    ensures ReduceState(s, k, action, util) == FrameListStep(s, k, action, util)
  {
    assert FrameMergeOf(action) == None && ActiveMergeOf(action) == None;
  }

  /** `updateTabPageIndex` touches only `ui`. */
  lemma TabPageIndexOnlyTouchesUi(s: WindowState, frameProps: Option<Frame>, util: FrameStateUtil)
    ensures TabPageIndexFor(s, frameProps, util).(ui := s.ui) == s
  {
  }

  /** The route `WINDOW_SET_PINNED` takes through the reducer. */
  lemma ReducePinned(s: WindowState, k: int, fp: Frame, isPinned: bool, util: FrameStateUtil)
    ensures ReduceState(s, k, SetPinned(fp, isPinned), util)
      == if HasPinnedAt(s.frames, fp.location) && isPinned
         then FrameListStep(FrameListStep(s, k, CloseFrame(Some(fp)), util), k, SetActiveFrame(fp), util)
         else UpdateFrameOf(s, fp, WithPinned(isPinned))
  {
    assert FrameMergeOf(SetPinned(fp, isPinned)) == None && ActiveMergeOf(SetPinned(fp, isPinned)) == None;
  }

  /** `WINDOW_SET_ACTIVE_FRAME` makes the frame's key the active one. */
  lemma SetActiveFrameActivates(s: WindowState, k: int, fp: Frame, util: FrameStateUtil)
    ensures FrameListStep(s, k, SetActiveFrame(fp), util).activeFrameKey == Some(fp.key)
  {
    TabPageIndexOnlyTouchesUi(s.(activeFrameKey := Some(fp.key)), Some(fp), util);
  }

  /**
   * `WINDOW_SET_PINNED` that pins a location some frame is already pinned
   * at re-enters the reducer: it runs `WINDOW_CLOSE_FRAME` and then
   * `WINDOW_SET_ACTIVE_FRAME` with the action's frame, so that frame's key
   * ends up active, and the key counter stays as it was.
   */
  lemma SetPinnedDuplicate(s: WindowState, k: int, fp: Frame, util: FrameStateUtil)
    requires HasPinnedAt(s.frames, fp.location)
    ensures ReduceState(s, k, SetPinned(fp, true), util)
      == ReduceState(ReduceState(s, k, CloseFrame(Some(fp)), util), k, SetActiveFrame(fp), util)
    ensures ReduceState(s, k, SetPinned(fp, true), util).activeFrameKey == Some(fp.key)
    ensures NextKey(k, SetPinned(fp, true)) == k
  {
    var s1 := FrameListStep(s, k, CloseFrame(Some(fp)), util);
    ReducePinned(s, k, fp, true, util);
    ReduceFrameList(s, k, CloseFrame(Some(fp)), util);
    ReduceFrameList(s1, k, SetActiveFrame(fp), util);
    SetActiveFrameActivates(s1, k, fp, util);
  }

  /** Any other `WINDOW_SET_PINNED` only sets the named frame's `isPinned`. */
  lemma SetPinnedRule(s: WindowState, k: int, fp: Frame, isPinned: bool, util: FrameStateUtil)
    requires !(HasPinnedAt(s.frames, fp.location) && isPinned)
    requires 0 <= FrameIndex(s.frames, Some(fp.key))
    ensures var i := FrameIndex(s.frames, Some(fp.key));
      ReduceState(s, k, SetPinned(fp, isPinned), util) == s.(frames := s.frames[i := s.frames[i].(isPinned := isPinned)])
  {
    ReducePinned(s, k, fp, isPinned, util);
    UpdateFrameAt(s, FrameIndex(s.frames, Some(fp.key)), WithPinned(isPinned));
  }

  /**
   * `updateTabPageIndex`: a missing or pinned frame, or the index -1, leaves
   * the state as it is; otherwise only `ui.tabs.tabPageIndex` changes, to the
   * index that `getFrameTabPageIndex` computes among the unpinned frames.
   */
  lemma TabPageIndexRules(s: WindowState, frameProps: Option<Frame>, util: FrameStateUtil)
    ensures var r := TabPageIndexFor(s, frameProps, util);
      && (frameProps.None? || frameProps.value.isPinned ==> r == s)
      && (frameProps.Some? && !frameProps.value.isPinned ==>
            var index := util.getFrameTabPageIndex(Unpinned(s.frames), frameProps.value);
            && (index == -1 ==> r == s)
            && (index != -1 ==> r == s.(ui := s.ui.(tabs := s.ui.tabs.(tabPageIndex := Some(index))))))
  {
  }

  /** `WINDOW_SET_TAB_PAGE_INDEX` with a defined index sets it and changes nothing else. */
  lemma SetTabPageIndexRule(s: WindowState, k: int, index: int, fp: Option<Frame>, util: FrameStateUtil)
    ensures ReduceState(s, k, SetTabPageIndex(Some(index), fp), util)
      == s.(ui := s.ui.(tabs := s.ui.tabs.(tabPageIndex := Some(index))))
  {
  }

  /** An action type the reducer does not know changes neither the state nor the key counter. */
  lemma UnknownActionIgnored(s: WindowState, k: int, actionType: string, util: FrameStateUtil)
    ensures ReduceState(s, k, Unknown(actionType), util) == s
    ensures NextKey(k, Unknown(actionType)) == k
  {
  }

  // ---------------------------------------------------------------------------
  // The store: the module-level `windowState` and `currentKey`

  class Store {
    var windowState: WindowState
    var currentKey: int

    constructor ()
      ensures windowState == InitialState && currentKey == 0
    {
      windowState := InitialState;
      currentKey := 0;
    }

    /** `incrementNextKey`: the counter goes up by one and its new value is the next frame key. */
    method IncrementNextKey() returns (nextKey: int)
      modifies this`currentKey
      ensures currentKey == old(currentKey) + 1 && nextKey == currentKey
    {
      currentKey := currentKey + 1;
      nextKey := currentKey;
    }

    method UpdateNavBarInput(url: string)
      modifies this`windowState
      ensures windowState == NavBarInput(old(windowState), url)
    {
      windowState := UpdateActive(windowState, WithInputLocation(url));
      windowState := UpdateActive(windowState, WithPreview(None));
    }

    method UpdateTabPageIndex(frameProps: Option<Frame>, util: FrameStateUtil)
      modifies this`windowState
      ensures windowState == TabPageIndexFor(old(windowState), frameProps, util)
    {
      if frameProps.None? || frameProps.value.isPinned {
        return;
      }
      var index := util.getFrameTabPageIndex(Unpinned(windowState.frames), frameProps.value);
      if index == -1 {
        return;
      }
      windowState := windowState.(ui := windowState.ui.(tabs := windowState.ui.tabs.(tabPageIndex := Some(index))));
    }

    /** `WINDOW_TAB_MOVE`: the source frame leaves its place and is put back just before or after the destination. */
    method MoveTab(source: Frame, destination: Frame, prepend: bool)
      modifies this`windowState
      ensures windowState == old(windowState).(frames := MoveFrame(old(windowState).frames, source, destination, prepend))
    {
      var sourceIndex := FrameIndex(windowState.frames, Some(source.key));
      var newIndex := FrameIndex(windowState.frames, Some(destination.key)) + (if prepend then 0 else 1);
      var frames := Splice(windowState.frames, sourceIndex, 1, []);
      if newIndex > sourceIndex {
        newIndex := newIndex - 1;
      }
      frames := Splice(frames, newIndex, 0, [source]);
      windowState := windowState.(frames := frames);
    }

    /** `doAction`: one action, applied to the store's state in the source's order of steps. */
    method DoAction(action: Action, util: FrameStateUtil)
      modifies this
      ensures windowState == ReduceState(old(windowState), old(currentKey), action, util)
      ensures currentKey == NextKey(old(currentKey), action)
    {
      var frameMerge := FrameMergeOf(action);
      var activeMerge := ActiveMergeOf(action);
      if frameMerge.Some? {
        windowState := UpdateFrameOf(windowState, frameMerge.value.0, frameMerge.value.1);
      } else if activeMerge.Some? {
        windowState := UpdateActive(windowState, activeMerge.value);
      } else if action.SetPinned? {
        var fp := action.frameProps;
        if HasPinnedAt(windowState.frames, fp.location) && action.isPinned {
          DoFrameListAction(CloseFrame(Some(fp)), util);
          DoFrameListAction(SetActiveFrame(fp), util);
        } else {
          windowState := UpdateFrameOf(windowState, fp, WithPinned(action.isPinned));
        }
      } else if UpdatesUrlbar(action) {
        DoUrlbarAction(action);
      } else if ChangesFrameList(action) {
        DoFrameListAction(action, util);
      } else {
        DoTabStripAction(action);
      }
    }

    /** The cases of `doAction` that rewrite the active frame's location, navbar and urlbar. */
    method DoUrlbarAction(action: Action)
      requires UpdatesUrlbar(action)
      modifies this`windowState
      ensures windowState == UrlbarStep(old(windowState), action)
    {
      match action {
        case SetUrl(url) =>
          var active := ActiveFrame(windowState);
          if active.Some? {
            if active.value.src == url {
              windowState := UpdateActive(windowState, ReloadMark);
            } else {
              windowState := UpdateActive(windowState, WithUrl(url));
            }
          }
        case SetLocation(key, url) =>
          var target := if IsTruthyKey(key) then key else windowState.activeFrameKey;
          windowState := UpdateFrame(windowState, FrameIndex(windowState.frames, target), WithLocation(url));
          if target == windowState.activeFrameKey {
            UpdateNavBarInput(url);
          }
        case SetNavbarInput(url) =>
          UpdateNavBarInput(url);
        case SetNavbarFocused(focused) =>
          windowState := UpdateActive(windowState, WithNavbarFocus(focused));
          windowState := UpdateActive(windowState, WithUrlbarFocus(focused));
          if !focused {
            windowState := UpdateActive(windowState, WithSelection(BlurSelection));
          }
        case SetUrlBarSuggestions(index, list) =>
          windowState := UpdateActive(windowState, WithSelectedIndex(index));
          windowState := UpdateActive(windowState, WithSuggestionList(list));
        case SetUrlBarSelected(selected) =>
          windowState := UpdateActive(windowState, WithSelection(Some(selected)));
          if selected {
            windowState := UpdateActive(windowState, WithUrlbarFocus(true));
          }
      }
    }

    /** The cases of `doAction` that replace the state or change the frame list or the active frame. */
    method DoFrameListAction(action: Action, util: FrameStateUtil)
      requires ChangesFrameList(action)
      modifies this
      ensures windowState == FrameListStep(old(windowState), old(currentKey), action, util)
      ensures currentKey == NextKey(old(currentKey), action)
    {
      match action {
        case SetState(w) =>
          windowState := w;
          currentKey := MaxKey(w.frames);
        case NewFrame(opts, openInForeground) =>
          var nextKey := IncrementNextKey();
          var activeKey := if openInForeground then Some(nextKey) else windowState.activeFrameKey;
          windowState := Merge(windowState, util.addFrame(windowState.frames, opts, nextKey, activeKey));
          if openInForeground {
            UpdateTabPageIndex(ActiveFrame(windowState), util);
          }
        case CloseFrame(optFp) =>
          var frameProps := if optFp.Some? then optFp else ActiveFrame(windowState);
          if frameProps.Some? {
            var f := frameProps.value;
            var closingActive := optFp.None? || optFp == ActiveFrame(windowState);
            var index := FrameIndex(windowState.frames, Some(f.key));
            windowState := Merge(windowState,
              util.removeFrame(windowState.frames, windowState.closedFrames, f.(closedAtIndex := Some(index)), f.key));
            if closingActive {
              UpdateTabPageIndex(ActiveFrame(windowState), util);
            }
          }
        case UndoClosedFrame =>
          windowState := Merge(windowState, util.undoCloseFrame(windowState, windowState.closedFrames));
        case SetActiveFrame(fp) =>
          windowState := windowState.(activeFrameKey := Some(fp.key));
          UpdateTabPageIndex(Some(fp), util);
        case SetTabPageIndex(index, optFp) =>
          if index.Some? {
            windowState := WithTabPageIndex(windowState, index.value);
          } else {
            UpdateTabPageIndex(optFp, util);
          }
      }
    }

    /** The cases of `doAction` that change the tab strip's drag state or frame order, or other window fields. */
    method DoTabStripAction(action: Action)
      requires ChangesTabStrip(action)
      modifies this`windowState
      ensures windowState == TabStripStep(old(windowState), action)
    {
      match action {
        case TabDragStart(fp) =>
          windowState := UpdateFrameOf(windowState, fp, WithDragging(true));
          windowState := WithDraggedTab(windowState, Some(fp));
        case TabDragStop(fp) =>
          windowState := UpdateFrameOf(windowState, fp, WithDragging(false));
          windowState := WithDraggedTab(windowState, None);
        case TabMove(source, destination, prepend) =>
          MoveTab(source, destination, prepend);
        case SetSearchDetail(detail) =>
          windowState := windowState.(searchDetail := detail);
        case SetMouseInTitlebar(inside) =>
          windowState := windowState.(ui := windowState.ui.(mouseInTitlebar := inside));
        case Unknown(_) =>
      }
    }
  }
}
