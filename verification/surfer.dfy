/**
 * The channel surfer application object: its endpoint list, its selections, the screen it shows,
 * the stack of screens `go_back` returns to, and the pile or list box that Tab moves the focus in.
 * Each button callback is a method; the screen carrying the button is its precondition.
 */
module Surfer {
  import opened Options
  import opened Strings
  import opened Endpoints
  import opened Client
  import opened Focus
  import opened Screens

  /** Whether the main loop is still running, was left normally, or died of an uncaught error. */
  datatype Status = Running | Exited | Crashed

  const AddedMessage := "New endpoint added successfully."

  class ChannelSurferApp {
    var endpoints: seq<Endpoint>
    var store: StoredFile
    var status: Status
    var selectedEndpoint: Option<Endpoint>
    var selectedDevice: Option<DataSource>
    var sources: seq<DataSource>
    var previousMenu: seq<Screen>
    var current: Screen
    var formPile: Option<Container>
    var listBox: Option<Container>

    /** The screens `go_back` can reach, oldest first, with the current one last. */
    ghost function History(): seq<Screen>
      reads this
    {
      previousMenu + [current]
    }

    /** The container Tab acts on: the form pile if there is one, else the list box. */
    ghost function Focused(): Option<Container>
      reads this
    {
      if formPile.Some? then formPile else listBox
    }

    /**
     * The invariant: the file holds the endpoint list; the history is one `Reachable` allows; every
     * screen that is shown or may be returned to agrees with the data; the form pile, if any, is the current screen's; otherwise
     * the list box, if any, is the current screen's.
     */
    ghost predicate Valid()
      reads this
    {
      && LoadEndpoints(store) == endpoints
      && Reachable(History())
      && (forall s | s in History() :: Agrees(s, |endpoints|, |sources|, selectedEndpoint.Some?, selectedDevice.Some?))
      && (formPile.Some? ==> IsPile(current) && FocusOn(formPile.value, current))
      && (formPile.None? && listBox.Some? ==> FocusOn(listBox.value, current))
    }

    /** `__init__` followed by `run` building the main menu: the endpoints come from the file. */
    constructor (file: StoredFile)
      ensures Valid() && status == Running
      ensures store == file && endpoints == LoadEndpoints(file)
      ensures selectedEndpoint == None && selectedDevice == None && sources == []
      ensures current == MainMenu && previousMenu == []
      ensures formPile == None && listBox == Some(InitialFocus(MainMenu))
    {
      store := file;
      endpoints := LoadEndpoints(file);
      status := Running;
      selectedEndpoint := None;
      selectedDevice := None;
      sources := [];
      previousMenu := [];
      current := MainMenu;
      formPile := None;
      listBox := Some(InitialFocus(MainMenu));
    }

    /**
     * `handle_input`: q or Q leaves the main loop; Tab and Shift-Tab move the focus of the form
     * pile if there is one, else of the list box, and always onto a selectable item; every other
     * key changes nothing.
     */
    method HandleInput(key: string)
      requires Valid() && status == Running
      modifies this
      ensures Valid()
      ensures status == (if key == "q" || key == "Q" then Exited else Running)
      ensures (key == "tab" || key == "shift tab") && old(formPile).Some? ==>
        var d := if key == "tab" then 1 else -1;
        && formPile == Some(old(formPile).value.(position := NextFocus(old(formPile).value.items, old(formPile).value.position, d)))
        && listBox == old(listBox)
      ensures (key == "tab" || key == "shift tab") && old(formPile).None? && old(listBox).Some? ==>
        var d := if key == "tab" then 1 else -1;
        && listBox == Some(old(listBox).value.(position := NextFocus(old(listBox).value.items, old(listBox).value.position, d)))
        && formPile == None
      ensures (key == "tab" || key == "shift tab") && Focused().Some? ==> Layout(current)[Focused().value.position]
      ensures key != "tab" && key != "shift tab" ==> formPile == old(formPile) && listBox == old(listBox)
      ensures old(Focused()).None? ==> Focused().None?
      ensures endpoints == old(endpoints) && store == old(store) && sources == old(sources)
      ensures selectedEndpoint == old(selectedEndpoint) && selectedDevice == old(selectedDevice)
      ensures current == old(current) && previousMenu == old(previousMenu)
    {
      if key == "q" || key == "Q" {
        status := Exited;
      } else if key == "tab" || key == "shift tab" {
        var direction := if key == "tab" then 1 else -1;
        if formPile.Some? {
          TabLandsOnSelectable(current, formPile.value.position, direction);
          var moved := MoveFocus(formPile.value, direction);
          formPile := Some(moved);
        } else if listBox.Some? {
          TabLandsOnSelectable(current, listBox.value.position, direction);
          var moved := MoveFocus(listBox.value, direction);
          listBox := Some(moved);
        }
      }
    }

    /** `exit_program`, the main menu's Exit button: leaves the main loop. */
    method ExitProgram()
      requires Valid() && status == Running && current == MainMenu
      modifies this
      ensures Valid() && status == Exited
      ensures endpoints == old(endpoints) && store == old(store) && sources == old(sources)
      ensures selectedEndpoint == old(selectedEndpoint) && selectedDevice == old(selectedDevice)
      ensures current == old(current) && previousMenu == old(previousMenu)
      ensures formPile == old(formPile) && listBox == old(listBox)
    {
      status := Exited;
    }

    /** `select_endpoint` with `show_select_endpoint`: pushes the main menu and lists the endpoints. */
    method SelectEndpoint()
      requires Valid() && status == Running && current == MainMenu
      modifies this
      ensures Valid() && status == Running
      ensures previousMenu == old(previousMenu) + [MainMenu] && current == EndpointList(|endpoints|)
      ensures formPile == None && listBox == Some(InitialFocus(current))
      ensures endpoints == old(endpoints) && store == old(store) && sources == old(sources)
      ensures selectedEndpoint == old(selectedEndpoint) && selectedDevice == old(selectedDevice)
    {
      ReachablePush(History(), EndpointList(|endpoints|));
      previousMenu := previousMenu + [current];
      formPile := None;
      listBox := Some(InitialFocus(EndpointList(|endpoints|)));
      current := EndpointList(|endpoints|);
      assert History() == old(History()) + [current];
    }

    /**
     * `endpoint_selected` with `show_endpoint_menu`: the endpoint behind button `idx` becomes
     * the selected one; the endpoint list is pushed and the endpoint menu shown. The list always
     * has one button per endpoint, so the index is always in range.
     */
    method EndpointSelected(idx: nat)
      requires Valid() && status == Running && current.EndpointList? && idx < current.count
      modifies this
      ensures Valid() && status == Running
      ensures idx < |endpoints| && selectedEndpoint == Some(endpoints[idx])
      ensures previousMenu == old(previousMenu) + [old(current)] && current == EndpointMenu
      ensures formPile == None && listBox == Some(InitialFocus(EndpointMenu))
      ensures endpoints == old(endpoints) && store == old(store) && sources == old(sources)
      ensures selectedDevice == old(selectedDevice)
    {
      assert current in History();
      ReachablePush(History(), EndpointMenu);
      selectedEndpoint := Some(endpoints[idx]);
      previousMenu := previousMenu + [current];
      formPile := None;
      listBox := Some(InitialFocus(EndpointMenu));
      current := EndpointMenu;
      assert History() == old(History()) + [current];
    }

    /**
     * `select_device`, behind the three action buttons of the endpoint menu: requests the source
     * listing from the selected endpoint and lists the sources of `listing`, the answer to that
     * request (none when it failed), each button remembering `action`.
     */
    method SelectDevice(action: Action, listing: SourceListing) returns (request: Request)
      requires Valid() && status == Running && current == EndpointMenu
      modifies this
      ensures Valid() && status == Running
      ensures selectedEndpoint.Some? && request == SourcesRequest(selectedEndpoint.value)
      ensures sources == GetDatasources(listing)
      ensures previousMenu == old(previousMenu) + [EndpointMenu] && current == DeviceList(action, |sources|)
      ensures formPile == None && listBox == Some(InitialFocus(current))
      ensures endpoints == old(endpoints) && store == old(store)
      ensures selectedEndpoint == old(selectedEndpoint) && selectedDevice == old(selectedDevice)
    {
      assert current in History();
      request := SourcesRequest(selectedEndpoint.value);
      ShowDevices(action, GetDatasources(listing));
    }

    /**
     * The device list of `select_device`: pushes the endpoint menu, keeps `fetched` as the
     * sources and offers one button per source, each remembering `action`.
     */
    method ShowDevices(action: Action, fetched: seq<DataSource>)
      requires Valid() && status == Running && current == EndpointMenu
      modifies this
      ensures Valid() && status == Running
      ensures sources == fetched
      ensures previousMenu == old(previousMenu) + [EndpointMenu] && current == DeviceList(action, |sources|)
      ensures formPile == None && listBox == Some(InitialFocus(current))
      ensures endpoints == old(endpoints) && store == old(store)
      ensures selectedEndpoint == old(selectedEndpoint) && selectedDevice == old(selectedDevice)
    {
      ghost var h := History();
      assert current in h;
      // Only a device list depends on the sources, and none lies below the endpoint menu.
      EndpointMenuHistory(h);
      AgreesWithNewSources(h, |endpoints|, |sources|, |fetched|, selectedEndpoint.Some?, selectedDevice.Some?);
      ReachablePush(h, DeviceList(action, |fetched|));
      previousMenu := previousMenu + [current];
      sources := fetched;
      listBox := Some(InitialFocus(DeviceList(action, |sources|)));
      current := DeviceList(action, |sources|);
      assert History() == h + [current];
      assert EndpointMenu in h;
    }

    /**
     * `device_selected`: the source behind button `idx` becomes the selected device, and the
     * form for the list's action is opened.
     */
    method DeviceSelected(idx: nat)
      requires Valid() && status == Running && current.DeviceList? && idx < current.count
      modifies this
      ensures Valid() && status == Running
      ensures idx < |sources| && selectedDevice == Some(sources[idx])
      ensures previousMenu == old(previousMenu) + [old(current)] && current == PromptFor(old(current).action)
      ensures formPile == Some(InitialFocus(current)) && listBox == old(listBox)
      ensures endpoints == old(endpoints) && store == old(store) && sources == old(sources)
      ensures selectedEndpoint == old(selectedEndpoint)
    {
      assert current in History();
      selectedDevice := Some(sources[idx]);
      match current.action
      case LockChannelAction => LockChannelPrompt();
      case HoppingAction => SetHoppingModePrompt();
      case TwoChannelAction => SetTwoChannelHoppingPrompt();
    }

    /** Opens `prompt`, a form reached from the device list: pushes the list, the form pile takes the focus. */
    method OpenPrompt(prompt: Screen)
      requires Valid() && status == Running && current.DeviceList? && prompt == PromptFor(current.action)
      requires selectedDevice.Some?
      modifies this
      ensures Valid() && status == Running
      ensures previousMenu == old(previousMenu) + [old(current)] && current == prompt
      ensures formPile == Some(InitialFocus(prompt)) && listBox == old(listBox)
      ensures endpoints == old(endpoints) && store == old(store) && sources == old(sources)
      ensures selectedEndpoint == old(selectedEndpoint) && selectedDevice == old(selectedDevice)
    {
      assert current in History();
      LayoutSpec(prompt);
      ReachablePush(History(), prompt);
      previousMenu := previousMenu + [current];
      formPile := Some(InitialFocus(prompt));
      current := prompt;
      assert History() == old(History()) + [current];
    }

    /** `lock_channel_prompt`: the channel form, focus on its edit field. */
    method LockChannelPrompt()
      requires Valid() && status == Running && current.DeviceList? && current.action == LockChannelAction
      requires selectedDevice.Some?
      modifies this
      ensures Valid() && status == Running
      ensures previousMenu == old(previousMenu) + [old(current)] && current == LockForm
      ensures formPile == Some(InitialFocus(LockForm)) && listBox == old(listBox)
      ensures endpoints == old(endpoints) && store == old(store) && sources == old(sources)
      ensures selectedEndpoint == old(selectedEndpoint) && selectedDevice == old(selectedDevice)
    {
      OpenPrompt(LockForm);
    }

    /** `set_hopping_mode_prompt`: the three preset buttons, focus on the first. */
    method SetHoppingModePrompt()
      requires Valid() && status == Running && current.DeviceList? && current.action == HoppingAction
      requires selectedDevice.Some?
      modifies this
      ensures Valid() && status == Running
      ensures previousMenu == old(previousMenu) + [old(current)] && current == HopPresetMenu
      ensures formPile == Some(InitialFocus(HopPresetMenu)) && listBox == old(listBox)
      ensures endpoints == old(endpoints) && store == old(store) && sources == old(sources)
      ensures selectedEndpoint == old(selectedEndpoint) && selectedDevice == old(selectedDevice)
    {
      OpenPrompt(HopPresetMenu);
    }

    /** `set_two_channel_hopping_prompt`: the two-channel form, focus on its edit field. */
    method SetTwoChannelHoppingPrompt()
      requires Valid() && status == Running && current.DeviceList? && current.action == TwoChannelAction
      requires selectedDevice.Some?
      modifies this
      ensures Valid() && status == Running
      ensures previousMenu == old(previousMenu) + [old(current)] && current == TwoChannelForm
      ensures formPile == Some(InitialFocus(TwoChannelForm)) && listBox == old(listBox)
      ensures endpoints == old(endpoints) && store == old(store) && sources == old(sources)
      ensures selectedEndpoint == old(selectedEndpoint) && selectedDevice == old(selectedDevice)
    {
      OpenPrompt(TwoChannelForm);
    }

    /**
     * `show_message`, as every command handler calls it right after emptying the history: the
     * submitting screen is pushed and the message shown with its OK button.
     */
    method ShowMessage(text: string)
      requires status == Running && previousMenu == [] && Submits(current) && LoadEndpoints(store) == endpoints
      requires Agrees(current, |endpoints|, |sources|, selectedEndpoint.Some?, selectedDevice.Some?)
      modifies this
      ensures Valid() && status == Running
      ensures previousMenu == [old(current)] && current == Message(text)
      ensures formPile == None && listBox == Some(InitialFocus(Message(text)))
      ensures endpoints == old(endpoints) && store == old(store) && sources == old(sources)
      ensures selectedEndpoint == old(selectedEndpoint) && selectedDevice == old(selectedDevice)
    {
      formPile := None;
      listBox := None;
      previousMenu := previousMenu + [current];
      listBox := Some(InitialFocus(Message(text)));
      current := Message(text);
      assert History() == old(History()) + [current];
    }

    /**
     * `perform_lock_channel`: locks the selected device onto the stripped channel text, then
     * shows the verdict over a history holding only the lock form.
     */
    method PerformLockChannel(channelText: string, response: Option<string>) returns (call: Call)
      requires Valid() && status == Running && current == LockForm
      modifies this
      ensures Valid() && status == Running
      ensures selectedEndpoint.Some? && selectedDevice.Some?
      ensures call == LockChannel(selectedEndpoint.value, selectedDevice.value.uuid, Strip(channelText),
                                  selectedDevice.value.interface, response)
      ensures previousMenu == [LockForm] && current == Message(call.result.message)
      ensures formPile == None && listBox == Some(InitialFocus(current))
      ensures endpoints == old(endpoints) && store == old(store) && sources == old(sources)
      ensures selectedEndpoint == old(selectedEndpoint) && selectedDevice == old(selectedDevice)
    {
      assert current in History();
      var device := selectedDevice.value;
      call := LockChannel(selectedEndpoint.value, device.uuid, Strip(channelText), device.interface, response);
      previousMenu := [];
      ShowMessage(call.result.message);
    }

    /**
     * `perform_set_hopping_mode`, behind the preset button carrying `action`: sets the selected
     * device hopping at rate 5 over the preset's channels, then shows the verdict over a history
     * holding only the preset menu.
     */
    method PerformSetHoppingMode(action: string, response: Option<string>, hopChannels: seq<string>)
      returns (call: Call)
      requires Valid() && status == Running && current == HopPresetMenu
      modifies this
      ensures Valid() && status == Running
      ensures selectedEndpoint.Some? && selectedDevice.Some?
      ensures call == SetHoppingMode(selectedEndpoint.value, selectedDevice.value.uuid, MultiChannelHopRate,
                                     PresetChannels(action), selectedDevice.value.interface, response, hopChannels)
      ensures previousMenu == [HopPresetMenu] && current == Message(call.result.message)
      ensures formPile == None && listBox == Some(InitialFocus(current))
      ensures endpoints == old(endpoints) && store == old(store) && sources == old(sources)
      ensures selectedEndpoint == old(selectedEndpoint) && selectedDevice == old(selectedDevice)
    {
      assert current in History();
      var device := selectedDevice.value;
      call := SetHoppingMode(selectedEndpoint.value, device.uuid, MultiChannelHopRate, PresetChannels(action),
                             device.interface, response, hopChannels);
      previousMenu := [];
      ShowMessage(call.result.message);
    }

    /**
     * `perform_set_two_channel_hopping`: splits the stripped text at its commas and sets the
     * selected device hopping at rate 6 over those pieces, however many there are; then shows
     * the verdict over a history holding only the form.
     */
    method PerformSetTwoChannelHopping(channelsText: string, response: Option<string>, hopChannels: seq<string>)
      returns (call: Call)
      requires Valid() && status == Running && current == TwoChannelForm
      modifies this
      ensures Valid() && status == Running
      ensures selectedEndpoint.Some? && selectedDevice.Some?
      ensures call == SetTwoChannelHopping(selectedEndpoint.value, selectedDevice.value.uuid,
                                           Split(Strip(channelsText), ','), selectedDevice.value.interface,
                                           response, hopChannels)
      ensures previousMenu == [TwoChannelForm] && current == Message(call.result.message)
      ensures formPile == None && listBox == Some(InitialFocus(current))
      ensures endpoints == old(endpoints) && store == old(store) && sources == old(sources)
      ensures selectedEndpoint == old(selectedEndpoint) && selectedDevice == old(selectedDevice)
    {
      assert current in History();
      var device := selectedDevice.value;
      var channels := Split(Strip(channelsText), ',');
      call := SetTwoChannelHopping(selectedEndpoint.value, device.uuid, channels, device.interface,
                                   response, hopChannels);
      previousMenu := [];
      ShowMessage(call.result.message);
    }

    /** `add_endpoint`: pushes the main menu and opens the five-field form, focus on the name field. */
    method AddEndpoint()
      requires Valid() && status == Running && current == MainMenu
      modifies this
      ensures Valid() && status == Running
      ensures previousMenu == old(previousMenu) + [MainMenu] && current == AddForm
      ensures formPile == Some(InitialFocus(AddForm)) && listBox == old(listBox)
      ensures endpoints == old(endpoints) && store == old(store) && sources == old(sources)
      ensures selectedEndpoint == old(selectedEndpoint) && selectedDevice == old(selectedDevice)
    {
      LayoutSpec(AddForm);
      ReachablePush(History(), AddForm);
      previousMenu := previousMenu + [current];
      formPile := Some(InitialFocus(AddForm));
      current := AddForm;
      assert History() == old(History()) + [current];
    }

    /**
     * `perform_add_endpoint`: appends the stripped record, saves the list, and shows the
     * confirmation over a history holding only the form.
     */
    method PerformAddEndpoint(name: string, url: string, kind: string, user: string, password: string)
      requires Valid() && status == Running && current == AddForm
      modifies this
      ensures Valid() && status == Running
      ensures endpoints == old(endpoints) + [NewEndpoint(name, url, kind, user, password)]
      ensures store == SaveEndpoints(endpoints) && LoadEndpoints(store) == endpoints
      ensures previousMenu == [AddForm] && current == Message(AddedMessage)
      ensures formPile == None && listBox == Some(InitialFocus(current))
      ensures sources == old(sources)
      ensures selectedEndpoint == old(selectedEndpoint) && selectedDevice == old(selectedDevice)
    {
      AppendEndpoint(NewEndpoint(name, url, kind, user, password));
    }

    /** The end of `perform_add_endpoint`: appends `added`, saves the list and confirms. */
    method AppendEndpoint(added: Endpoint)
      requires Valid() && status == Running && current == AddForm
      modifies this
      ensures Valid() && status == Running
      ensures endpoints == old(endpoints) + [added]
      ensures store == SaveEndpoints(endpoints) && LoadEndpoints(store) == endpoints
      ensures previousMenu == [AddForm] && current == Message(AddedMessage)
      ensures formPile == None && listBox == Some(InitialFocus(current))
      ensures sources == old(sources)
      ensures selectedEndpoint == old(selectedEndpoint) && selectedDevice == old(selectedDevice)
    {
      endpoints := endpoints + [added];
      store := SaveEndpoints(endpoints);
      previousMenu := [];
      ShowMessage(AddedMessage);
    }

    /** `remove_endpoint`: pushes the main menu and lists the endpoints, each button carrying its index. */
    method RemoveEndpoint()
      requires Valid() && status == Running && current == MainMenu
      modifies this
      ensures Valid() && status == Running
      ensures previousMenu == old(previousMenu) + [MainMenu] && current == RemoveList(|endpoints|)
      ensures listBox == Some(InitialFocus(current)) && formPile == old(formPile)
      ensures endpoints == old(endpoints) && store == old(store) && sources == old(sources)
      ensures selectedEndpoint == old(selectedEndpoint) && selectedDevice == old(selectedDevice)
    {
      ReachablePush(History(), RemoveList(|endpoints|));
      previousMenu := previousMenu + [current];
      listBox := Some(InitialFocus(RemoveList(|endpoints|)));
      current := RemoveList(|endpoints|);
      assert History() == old(History()) + [current];
    }

    /**
     * `perform_remove_endpoint`, behind button `idx` of a removal list: pops entry `idx`, saves
     * the list and shows which endpoint went. The list may have been built before an earlier
     * removal (it comes back through OK), so `idx` may be past the end: `pop` then raises
     * IndexError, which nothing catches.
     */
    method PerformRemoveEndpoint(idx: nat)
      requires Valid() && status == Running && current.RemoveList? && idx < current.count
      modifies this
      ensures Valid()
      ensures old(idx < |endpoints|) ==>
        && status == Running
        && endpoints == RemoveAt(old(endpoints), idx)
        && store == SaveEndpoints(endpoints) && LoadEndpoints(store) == endpoints
        && previousMenu == [old(current)] && current == Message("Removed endpoint: " + old(endpoints)[idx].name)
        && formPile == None && listBox == Some(InitialFocus(current))
      ensures old(idx >= |endpoints|) ==>
        && status == Crashed
        && endpoints == old(endpoints) && store == old(store)
        && previousMenu == old(previousMenu) && current == old(current)
        && formPile == old(formPile) && listBox == old(listBox)
      ensures sources == old(sources)
      ensures selectedEndpoint == old(selectedEndpoint) && selectedDevice == old(selectedDevice)
    {
      assert current in History();
      if idx >= |endpoints| {
        status := Crashed;
        return;
      }
      var removed := endpoints[idx];
      endpoints := RemoveAt(endpoints, idx);
      store := SaveEndpoints(endpoints);
      previousMenu := [];
      ShowMessage("Removed endpoint: " + removed.name);
    }

    /**
     * `go_back`, behind every Back and OK button (the main menu has neither): both focus containers are forgotten; the last
     * pushed screen comes back, or the main menu is rebuilt when nothing was pushed.
     */
    method GoBack()
      requires Valid() && status == Running && !current.MainMenu?
      modifies this
      ensures Valid() && status == Running
      ensures old(previousMenu) != [] ==>
        && current == old(previousMenu)[|old(previousMenu)| - 1]
        && previousMenu == old(previousMenu)[..|old(previousMenu)| - 1]
        && formPile == None && listBox == None
      ensures old(previousMenu) == [] ==>
        && current == MainMenu && previousMenu == []
        && formPile == None && listBox == Some(InitialFocus(MainMenu))
      ensures endpoints == old(endpoints) && store == old(store) && sources == old(sources)
      ensures selectedEndpoint == old(selectedEndpoint) && selectedDevice == old(selectedDevice)
    {
      if previousMenu != [] {
        ShowPrevious();
      } else {
        ShowMainMenu();
      }
    }

    /** `previous_menu.pop()` as the main widget, with both focus containers forgotten. */
    method ShowPrevious()
      requires Valid() && status == Running && previousMenu != []
      modifies this
      ensures Valid() && status == Running
      ensures current == old(previousMenu)[|old(previousMenu)| - 1]
      ensures previousMenu == old(previousMenu)[..|old(previousMenu)| - 1]
      ensures formPile == None && listBox == None
      ensures endpoints == old(endpoints) && store == old(store) && sources == old(sources)
      ensures selectedEndpoint == old(selectedEndpoint) && selectedDevice == old(selectedDevice)
    {
      ghost var before := previousMenu;
      ReachablePop(previousMenu, current);
      formPile := None;
      listBox := None;
      current := previousMenu[|previousMenu| - 1];
      previousMenu := previousMenu[..|previousMenu| - 1];
      assert History() == before;
    }

    /** `main_menu` as the main widget, with nothing to go back to: its list box takes the focus. */
    method ShowMainMenu()
      requires status == Running && previousMenu == [] && LoadEndpoints(store) == endpoints
      modifies this
      ensures Valid() && status == Running
      ensures current == MainMenu && previousMenu == []
      ensures formPile == None && listBox == Some(InitialFocus(MainMenu))
      ensures endpoints == old(endpoints) && store == old(store) && sources == old(sources)
      ensures selectedEndpoint == old(selectedEndpoint) && selectedDevice == old(selectedDevice)
    {
      formPile := None;
      listBox := Some(InitialFocus(MainMenu));
      current := MainMenu;
    }
  }

  /**
   * After a command completes, OK returns to the submitting form, not to the main menu; a second
   * Back then reaches the main menu.
   */
  method CompletionKeepsSubmittingScreen() returns (pushed: seq<Screen>, afterOk: Screen, afterBack: Screen)
    ensures pushed == [AddForm]
    ensures afterOk == AddForm
    ensures afterBack == MainMenu
  {
    var app := new ChannelSurferApp(Missing);
    app.AddEndpoint();
    app.PerformAddEndpoint("lab", "http://10.0.0.2:2501", "local", "kismet", "secret");
    pushed := app.previousMenu;
    app.GoBack();
    afterOk := app.current;
    app.GoBack();
    afterBack := app.current;
  }

  /** Opening the endpoint list and pressing Back returns to the main menu with nothing pushed. */
  method BackFromEndpointList(file: StoredFile) returns (screen: Screen, pushed: nat)
    ensures screen == MainMenu && pushed == 0
  {
    var app := new ChannelSurferApp(file);
    app.SelectEndpoint();
    app.GoBack();
    screen := app.current;
    pushed := |app.previousMenu|;
  }

  /**
   * Pressing entry `idx` of a removal list whose index is still in range, then OK, brings back
   * the same list, built before the removal.
   */
  method RemoveAndAcknowledge(app: ChannelSurferApp, idx: nat)
    requires app.Valid() && app.status == Running && app.current.RemoveList? && idx < |app.endpoints|
    modifies app
    ensures app.Valid() && app.status == Running
    ensures app.endpoints == RemoveAt(old(app.endpoints), idx)
    ensures app.current == old(app.current) && app.previousMenu == []
  {
    assert app.current in app.History();
    app.PerformRemoveEndpoint(idx);
    app.GoBack();
  }

  /**
   * A removal list shown again through OK still has the buttons of the list before the removal.
   * With endpoints `a, b, c`: removing `a`, then pressing OK and the button labelled `b` removes
   * `c`, the endpoint now at that index.
   */
  method StaleRemovalTakesWrongEntry(a: Endpoint, b: Endpoint, c: Endpoint) returns (left: seq<Endpoint>)
    ensures left == [b]
  {
    var app := new ChannelSurferApp(Saved([a, b, c]));
    app.RemoveEndpoint();
    RemoveAndAcknowledge(app, 0);
    assert app.endpoints == [b, c];
    RemoveAndAcknowledge(app, 1);
    left := app.endpoints;
  }

  /**
   * With endpoints `a, b`: removing `a`, then pressing OK and the button labelled `b` asks for
   * an index past the end of the shortened list, and the application dies of the IndexError.
   */
  method StaleRemovalCrashes(a: Endpoint, b: Endpoint) returns (status: Status)
    ensures status == Crashed
  {
    var app := new ChannelSurferApp(Saved([a, b]));
    app.RemoveEndpoint();
    RemoveAndAcknowledge(app, 0);
    app.PerformRemoveEndpoint(1);
    status := app.status;
  }
}
