/**
 * The screens of the channel surfer, each reduced to a tag (with the data its layout depends on)
 * and to the selectable flags of its items, and the shape every screen history can take.
 */
module Screens {
  import opened Focus

  /** The device action chosen on the endpoint menu. */
  datatype Action = LockChannelAction | HoppingAction | TwoChannelAction

  /** What the main widget shows. `count` is the number of entry buttons the screen was built with. */
  datatype Screen =
    | MainMenu
    | EndpointList(count: nat)
    | EndpointMenu
    | DeviceList(action: Action, count: nat)
    | LockForm
    | HopPresetMenu
    | TwoChannelForm
    | AddForm
    | RemoveList(count: nat)
    | Message(text: string)

  /**
   * A choice list: title, divider, then one button per entry, or a "none available" text line
   * when there are no entries, then Back.
   */
  function ChoiceList(count: nat): seq<bool> {
    [false, false] + (if count == 0 then [false] else seq(count, _ => true)) + [true]
  }

  /** Which items of each screen can take the focus: buttons and edit fields can, text and dividers cannot. */
  function Layout(s: Screen): seq<bool> {
    match s
    case MainMenu => [false, false, true, true, true, true]
    case EndpointList(count) => ChoiceList(count)
    case EndpointMenu => [false, false, true, true, true, true]
    case DeviceList(_, count) => ChoiceList(count)
    case LockForm => [false, false, true, false, true, true]
    case HopPresetMenu => [false, false, true, true, true, true]
    case TwoChannelForm => [false, false, true, false, true, true]
    case AddForm => [false, false, true, true, true, true, true, false, true, true]
    case RemoveList(count) => ChoiceList(count)
    case Message(_) => [false, false, true]
  }

  /** The screens built as a pile (the forms and the preset menu); the others are list boxes. */
  predicate IsPile(s: Screen) {
    s.LockForm? || s.HopPresetMenu? || s.TwoChannelForm? || s.AddForm?
  }

  /** The first selectable item, or the length of the list when there is none. */
  function FirstSelectable(items: seq<bool>): (r: nat)
    ensures r <= |items|
    ensures forall j :: 0 <= j < r ==> !items[j]
    ensures r < |items| ==> items[r]
    ensures (exists j :: 0 <= j < |items| && items[j]) ==> r < |items|
  {
    if items == [] then 0
    else if items[0] then 0
    else 1 + FirstSelectable(items[1..])
  }

  /**
   * The focus a freshly shown screen has when the next key arrives: its first selectable item.
   * A pile starts there; a list box is built focused on item 0 and moves there when it is first
   * drawn, before any key is read. That is the third item on every screen, except on a choice
   * list without entries, where it is the fourth, Back (see `FocusStartsOnFirstSelectable`).
   */
  function InitialFocus(s: Screen): Container {
    Container(Layout(s), if (s.EndpointList? || s.DeviceList? || s.RemoveList?) && s.count == 0 then 3 else 2)
  }

  /** The container `c` belongs to screen `s` and its focus is one of the screen's items. */
  predicate FocusOn(c: Container, s: Screen) {
    c.items == Layout(s) && 0 <= c.position < |c.items|
  }

  /**
   * Every screen ends with a button (Back, Exit or OK), and a freshly shown screen's focus is
   * on a selectable item of it.
   */
  lemma LayoutSpec(s: Screen)
    ensures |Layout(s)| >= 3 && Layout(s)[|Layout(s)| - 1]
    ensures FocusOn(InitialFocus(s), s) && Layout(s)[InitialFocus(s).position]
  {
  }

  /**
   * Every screen, pile or list box, takes its first key with the focus on its first selectable
   * item: a pile starts there, and a list box moves there when it is first drawn.
   */
  lemma FocusStartsOnFirstSelectable(s: Screen)
    ensures InitialFocus(s).position == FirstSelectable(Layout(s))
  {
    var items := Layout(s);
    var k := InitialFocus(s).position;
    assert k < |items| && items[k] && forall j :: 0 <= j < k ==> !items[j];
    FirstSelectableAt(items, k);
  }

  /** A selectable item with nothing selectable before it is the first selectable one. */
  lemma FirstSelectableAt(items: seq<bool>, k: nat)
    requires k < |items| && items[k]
    requires forall j :: 0 <= j < k ==> !items[j]
    ensures FirstSelectable(items) == k
  {
  }

  /**
   * Tab and Shift-Tab never leave the focus on a text line or a divider: from any item of any
   * screen they land on a selectable item.
   */
  lemma TabLandsOnSelectable(s: Screen, position: int, direction: int)
    requires 0 <= position < |Layout(s)| && (direction == 1 || direction == -1)
    ensures 0 <= NextFocus(Layout(s), position, direction) < |Layout(s)|
    ensures Layout(s)[NextFocus(Layout(s), position, direction)]
  {
    var items := Layout(s);
    LayoutSpec(s);
    StaysExactlyWhenAlone(items, position, direction);
  }

  /** Right after start, the main menu has its first button focused, and Tab moves on to the second. */
  lemma FirstTabOnMainMenu()
    ensures InitialFocus(MainMenu).position == 2
    ensures NextFocus(Layout(MainMenu), InitialFocus(MainMenu).position, 1) == 3
  {
  }

  /** The form a device action leads to. */
  function PromptFor(action: Action): Screen {
    match action
    case LockChannelAction => LockForm
    case HoppingAction => HopPresetMenu
    case TwoChannelAction => TwoChannelForm
  }

  /** Screen `to` is opened from a button on screen `from`, pushing `from` onto the history. */
  predicate Opens(from: Screen, to: Screen) {
    match from
    case MainMenu => to.EndpointList? || to.AddForm? || to.RemoveList?
    case EndpointList(_) => to == EndpointMenu
    case EndpointMenu => to.DeviceList?
    case DeviceList(action, _) => to == PromptFor(action)
    case _ => false
  }

  /** The screens whose Submit (or entry) buttons run a command and show its message. */
  predicate Submits(s: Screen) {
    s.LockForm? || s.HopPresetMenu? || s.TwoChannelForm? || s.AddForm? || s.RemoveList?
  }

  /**
   * Screen `s` agrees with the data it was built from: an endpoint list has one button per
   * endpoint; a removal list at least as many buttons as there are endpoints; a device list one
   * button per fetched source; the endpoint menu and device list need a selected endpoint, and
   * the device forms a selected device too.
   */
  predicate Agrees(s: Screen, endpointCount: nat, sourceCount: nat, hasEndpoint: bool, hasDevice: bool) {
    && (s.EndpointList? ==> s.count == endpointCount)
    && (s.RemoveList? ==> endpointCount <= s.count)
    && (s.DeviceList? ==> s.count == sourceCount)
    && (s.EndpointMenu? || s.DeviceList? ==> hasEndpoint)
    && (s.LockForm? || s.HopPresetMenu? || s.TwoChannelForm? ==> hasEndpoint && hasDevice)
  }

  /**
   * The histories (`previous_menu` followed by the current screen) the app can be in: a drill
   * down from the main menu, one screen per step; or a submitting screen alone, or with the
   * message its command produced on top.
   */
  ghost predicate Reachable(history: seq<Screen>) {
    || (|history| >= 1 && history[0] == MainMenu
        && forall i :: 1 <= i < |history| ==> Opens(history[i - 1], history[i]))
    || (|history| == 1 && Submits(history[0]))
    || (|history| == 2 && Submits(history[0]) && history[1].Message?)
  }

  /** How many drill-down steps a screen lies below the main menu. */
  function Depth(s: Screen): nat {
    match s
    case MainMenu => 0
    case EndpointList(_) => 1
    case AddForm => 1
    case RemoveList(_) => 1
    case EndpointMenu => 2
    case DeviceList(_, _) => 3
    case LockForm => 4
    case HopPresetMenu => 4
    case TwoChannelForm => 4
    case Message(_) => 5
  }

  /** In a drill down from the main menu, the screen at index `i` lies `i` steps deep. */
  lemma {:induction false} DrillDownDepths(history: seq<Screen>)
    requires |history| >= 1 && history[0] == MainMenu
    requires forall i :: 1 <= i < |history| ==> Opens(history[i - 1], history[i])
    ensures forall i :: 0 <= i < |history| ==> Depth(history[i]) == i
  {
    if |history| > 1 {
      var shorter := history[..|history| - 1];
      assert forall i :: 1 <= i < |shorter| ==> Opens(shorter[i - 1], shorter[i]);
      DrillDownDepths(shorter);
      var last := |history| - 1;
      assert Opens(history[last - 1], history[last]);
      assert Depth(history[last - 1]) == last - 1;
    }
  }

  /**
   * A history holds at most five screens, starts at the main menu or at a submitting screen,
   * and shows a message only on top.
   */
  lemma HistoryShape(history: seq<Screen>)
    requires Reachable(history)
    ensures 1 <= |history| <= 5
    ensures history[0] == MainMenu || Submits(history[0])
    ensures forall i :: 0 <= i < |history| - 1 ==> !history[i].Message?
  {
    if history[0] == MainMenu && forall i :: 1 <= i < |history| ==> Opens(history[i - 1], history[i]) {
      DrillDownDepths(history);
      var top := history[|history| - 1];
      assert Depth(top) == |history| - 1;
      if |history| >= 2 {
        assert Opens(history[|history| - 2], top);
      }
    }
  }

  /**
   * When the endpoint menu is on top, the history is the drill down main menu, endpoint list,
   * endpoint menu: no device list lies in it.
   */
  lemma EndpointMenuHistory(history: seq<Screen>)
    requires Reachable(history) && |history| >= 1 && history[|history| - 1] == EndpointMenu
    ensures forall i :: 0 <= i < |history| ==> !history[i].DeviceList?
  {
    DrillDownDepths(history);
    forall i | 0 <= i < |history|
      ensures !history[i].DeviceList?
    {
      assert Depth(history[i]) == i <= 2;
    }
  }

  /** Only a device list depends on the number of sources: without one, a new count changes nothing. */
  lemma AgreesWithNewSources(history: seq<Screen>, endpointCount: nat, oldCount: nat, newCount: nat,
                             hasEndpoint: bool, hasDevice: bool)
    requires forall i :: 0 <= i < |history| ==> !history[i].DeviceList?
    requires forall s | s in history :: Agrees(s, endpointCount, oldCount, hasEndpoint, hasDevice)
    ensures forall s | s in history :: Agrees(s, endpointCount, newCount, hasEndpoint, hasDevice)
  {
    forall s | s in history
      ensures Agrees(s, endpointCount, newCount, hasEndpoint, hasDevice)
    {
      var i :| 0 <= i < |history| && history[i] == s;
      assert Agrees(s, endpointCount, oldCount, hasEndpoint, hasDevice);
    }
  }

  /** Pushing a screen the top screen opens keeps the history reachable. */
  lemma ReachablePush(history: seq<Screen>, next: Screen)
    requires Reachable(history) && |history| >= 1 && Opens(history[|history| - 1], next)
    ensures Reachable(history + [next])
  {
  }

  /** Popping the top screen off a history of two or more screens leaves a reachable history. */
  lemma ReachablePop(previous: seq<Screen>, top: Screen)
    requires Reachable(previous + [top]) && previous != []
    ensures Reachable(previous)
  {
    var history := previous + [top];
    assert previous == history[..|history| - 1];
    if history[0] == MainMenu && forall i :: 1 <= i < |history| ==> Opens(history[i - 1], history[i]) {
      assert forall i :: 1 <= i < |previous| ==> Opens(previous[i - 1], previous[i]);
    }
  }
}
