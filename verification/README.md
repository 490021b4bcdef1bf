# Channel Surfer, modelled in Dafny

Channel Surfer is a terminal interface for driving the data sources of one or more remote
Kismet servers: the user keeps a list of server endpoints, picks one, picks a capture source on
it, and then locks the source onto one channel, sets it hopping over a preset channel list, or
sets it hopping between channels typed in by hand. This project models the logic of
`channel_surfer.py` once rendering, HTTP and file access are taken away:

- **Focus movement** (`focus.dfy`, module `Focus`). Tab and Shift-Tab search the items of the
  current pile or list box in their direction, wrapping around, for the nearest selectable one.
  `MoveFocus` is the loop of `move_focus_in_pile` / `move_focus_in_listbox`. It is proved equal
  to the function `NextFocus`, and the lemmas about `NextFocus` say where the focus lands.
- **Screens and history** (`screens.dfy`, module `Screens`). Every screen the application can
  show is a tag. Its widgets are reduced to the selectable flags of its items. `Reachable` says
  which stacks of screens (`previous_menu` plus the screen on display) can occur.
- **The application object** (`surfer.dfy`, class `Surfer.ChannelSurferApp`). The fields are
  the ones the code updates in place: `endpoints`, the selections, `sources`, `previous_menu`,
  the displayed screen, `form_pile` and `list_box`. Every button callback is a method. Its
  precondition is the screen that carries the button. Its postcondition gives the whole new
  state and keeps the invariant `Valid()`.
- **Endpoint store** (`endpoints.dfy`, module `Endpoints`). The configuration file is reduced to
  what reading it yields: missing, not JSON, or the list last saved.
- **Kismet commands** (`client.dfy`, module `Client`). Each command is a request (verb, URL,
  credentials, JSON command) together with the `(success, message)` verdict. A reply is
  `Some(text)` when `make_request` returned a response and `None` when it caught a request
  error. The hop channels the server reports are an input.
- **String built-ins** (`strings.dfy`, module `Strings`). These are Python's `strip`, `split`,
  `join`, `replace` and substring `in`, written out over `seq<char>`.

Behaviour of the code that the model keeps, and that a reader may not expect:

- After a command completes, `previous_menu` is first reset to the empty list and then receives
  the form or list whose Submit button was pressed (`channel_surfer.py:414-415`, `:441`). OK
  therefore returns to that form, not to the main menu.
- A command counts as applied when the reply text contains the confirmation as a substring
  (`channel_surfer.py:48`, `:61`); the reply is not decoded first. The test accepts any reply
  that holds the text anywhere, for instance inside the value of some other field.
- The 2.4 GHz preset sends 12 channels: 1 to 11, then 14 (`channel_surfer.py:329`).
- The two-channel form sends whatever its comma-separated text splits into, however many
  pieces that is; the count is never checked (`channel_surfer.py:368`).
- `go_back` clears both `form_pile` and `list_box`. After Back or OK neither is set again, so
  Tab does nothing on a screen that was restored from the history.
- A removal list that comes back through OK was built before the removal, so its buttons still
  carry the old indexes. Pressing one removes the endpoint now at that index
  (`StaleRemovalTakesWrongEntry`). If that index is past the end, `pop` raises an IndexError
  that nothing catches (`StaleRemovalCrashes`). The model records the uncaught error as the
  status `Crashed`.

## Model

| member | source | states |
|---|---|---|
| Strings.Strip | channel_surfer.py:405-411 | `strip()` returns the slice left after the leading and the trailing whitespace; the result neither starts nor ends with whitespace |
| Strings.StripIdempotent | channel_surfer.py:405-411 | stripping a stripped field changes nothing |
| Strings.Split | channel_surfer.py:56 | `split(',')` yields at least one piece, and no piece holds the separator |
| Strings.JoinSplit | channel_surfer.py:56 | joining the pieces of a split with the same separator gives back the original string |
| Strings.SplitJoin | channel_surfer.py:56 | splitting a join of one or more separator-free parts gives back the parts |
| Strings.Join | channel_surfer.py:35 | `sep.join(parts)`; it has no contract of its own: `JoinSplit`, `SplitJoin` and `FormatThreeChannels` state what it produces |
| Strings.Without | channel_surfer.py:35 | `replace(c, '')` drops every `c`, keeps every other character, and shortens the string by the number of `c`s |
| Strings.WithoutAppend | channel_surfer.py:35 | dropping a character from a concatenation is dropping it from each part and concatenating the results, so order and multiplicity of the other characters are kept |
| Strings.WithoutSingle | channel_surfer.py:35 | on a single character, `c` itself becomes the empty string and any other character is kept |
| Strings.Contains | channel_surfer.py:48 | Python's substring `in`; it has no contract of its own: `ContainsInfix` and `NotContainsMissingChar` state when it holds and when it does not |
| Strings.ContainsInfix | channel_surfer.py:48 | a string occurs in any text built around it |
| Strings.NotContainsMissingChar | channel_surfer.py:48 | a pattern with a character the text lacks does not occur in it |
| Endpoints.LoadEndpoints | channel_surfer.py:19-27 | a saved file yields its list; a missing or non-JSON file yields the empty list |
| Endpoints.SaveEndpoints | channel_surfer.py:29-32 | saving leaves a file that holds a list |
| Endpoints.LoadAfterSave | channel_surfer.py:19-32 | loading what was saved gives back the same list |
| Endpoints.NewEndpoint | channel_surfer.py:405-411 | the record built from the five stripped form fields; `NewEndpointTrimmed` states its fields are trimmed and that re-entering them gives the same record |
| Endpoints.NewEndpointTrimmed | channel_surfer.py:405-411 | every field of a new record is free of surrounding whitespace, and entering the record's own fields again gives the same record |
| Endpoints.RemoveAt | channel_surfer.py:433 | `pop(idx)` leaves one entry fewer: the entries before `idx` in place, the ones after it shifted down by one |
| Endpoints.RemoveAtLosesOnlyThatEntry | channel_surfer.py:433 | the remaining entries plus the removed one are exactly the old entries |
| Client.SourcesRequest | channel_surfer.py:82 | the listing is a GET of `<url>/datasource/all_sources.json` with the endpoint's credentials and no command |
| Client.GetDatasources | channel_surfer.py:81-91 | the decoded listing, or no sources when the server was unreachable or the reply was not JSON |
| Client.FormatHopChannels | channel_surfer.py:34-35 | the hop channels joined by single spaces with quotes and brackets removed; `FormatHopChannelsSpec` and `FormatThreeChannels` state what it shows |
| Client.StripPunctuation | channel_surfer.py:35 | the result has no `"`, `[` or `]`, and keeps every other character of the input |
| Client.StripPunctuationAppend | channel_surfer.py:35 | removing the punctuation from a concatenation is removing it from each part and concatenating the results |
| Client.StripPunctuationSingle | channel_surfer.py:35 | on a single character, a `"`, `[` or `]` disappears and any other character is kept |
| Client.StripPunctuationIdempotent | channel_surfer.py:35 | removing the punctuation twice is the same as removing it once |
| Client.FormatHopChannelsSpec | channel_surfer.py:34-35 | the formatted list has no `"`, `[` or `]`; when no channel has any, it is the channels joined by single spaces |
| Client.FormatThreeChannels | channel_surfer.py:34-35 | three channels free of `"`, `[` and `]` are shown as `a b c` |
| Client.LockChannel | channel_surfer.py:45-51 | POSTs `{"channel": channel}` to `<url>/datasource/by-uuid/<uuid>/set_channel.cmd`; success iff a reply exists and contains `"kismet.datasource.channel": "<channel>"`; the message is the success text on success and the failure text otherwise, each naming the channel and the interface |
| Client.LockMessageNames | channel_surfer.py:49-51 | a lock message, success or failure, names the channel and the interface it is about |
| Client.LockConfirmedReply | channel_surfer.py:48-49 | any reply that embeds the confirmation counts as a lock |
| Client.LockWithoutReply | channel_surfer.py:48-51 | with no reply the lock fails, for every channel, and the message says so |
| Client.LockRejectedReply | channel_surfer.py:48-51 | a reply that lacks a character of the requested channel is a failure |
| Client.HoppingPayloadSpec | channel_surfer.py:54-56 | the payload always hops at the given rate; it has `channels` iff the channel string is non-empty, and those are comma-free pieces that join back to the string |
| Client.HoppingResult | channel_surfer.py:61-66 | success iff a reply exists and contains `"kismet.datasource.hopping": 1`; on success the message lists the formatted hop channels; both messages name the interface |
| Client.SetHoppingMode | channel_surfer.py:53-66 | POSTs the hopping payload for the rate and channel string to the source's `set_channel.cmd` with the endpoint's credentials; the verdict is `HoppingResult` |
| Client.SetTwoChannelHopping | channel_surfer.py:68-79 | POSTs hopping at rate 6 with the channel list unchanged, whatever its length; the verdict is `HoppingResult` |
| Client.HoppingConfirmedReply | channel_surfer.py:61 | any reply that embeds the hopping confirmation counts as success |
| Client.HoppingRejectedReply | channel_surfer.py:61-66 | a reply without a `1` in it, such as one reporting hopping `0`, is a failure |
| Client.HoppingPayload | channel_surfer.py:54-56 | the hopping command for a rate and a channel string; `HoppingPayloadSpec` states its fields |
| Client.PresetList | channel_surfer.py:328-338 | the channel list behind each preset action, none for any other; `PresetSizes`, `PresetListSeparable` and `PresetPayload` state its contents |
| Client.PresetChannels | channel_surfer.py:328-338 | the comma-joined channel string each preset action sends; `PresetBothString` and `PresetPayload` relate it to the lists |
| Client.PresetListSeparable | channel_surfer.py:328-336 | every preset channel is non-empty and has no comma |
| Client.PresetPayload | channel_surfer.py:328-345 | the three preset actions, and only they, send a channel list, and the payload carries exactly the preset's channels at rate 5; any other action sends `""` and the payload has no `channels` |
| Client.PresetSizes | channel_surfer.py:328-336 | the 2.4 GHz preset has 12 channels ending in 14, the 5 GHz preset 28, and the combined preset is the first followed by the second, 40 channels |
| Client.PresetBothString | channel_surfer.py:328-336 | the combined channel string is the 2.4 GHz string, a comma, then the 5 GHz string |
| Focus.Probe | channel_surfer.py:173 | the probed position `(focus + direction * i) % n` always lies in the list |
| Focus.SearchFrom | channel_surfer.py:172-178 | the remaining steps of the focus search; `SearchFromSpec` states where it stops |
| Focus.NextFocus | channel_surfer.py:170-188 | the reference definition of one Tab or Shift-Tab that `MoveFocus` is proved equal to; `NextFocusSpec` and the lemmas after it state where it lands |
| Focus.MoveFocus | channel_surfer.py:170-188 | the focus loop leaves the items alone and moves the focus to `NextFocus` |
| Focus.SearchFromSpec | channel_surfer.py:172-178 | the search from step `i` stops at the first selectable step, or keeps the focus when there is none |
| Focus.NextFocusSpec | channel_surfer.py:170-188 | the new focus is the first selectable position reached, with no selectable position on the steps before it, or the old focus when no step finds one; lists of 0 or 1 items never move; a focus in the list stays in it |
| Focus.ProbeAvoidsStart | channel_surfer.py:172-173 | no step `1 .. n - 1` comes back to the starting position |
| Focus.StaysExactlyWhenAlone | channel_surfer.py:170-188 | Tab or Shift-Tab leaves the focus in place exactly when no other item is selectable, and otherwise lands on a selectable item |
| Focus.ShiftTabUndoesTab | channel_surfer.py:156-168 | from a selectable item, Tab then Shift-Tab comes back to it |
| Focus.TabSkipsUnselectable | channel_surfer.py:180-188 | with the 2nd and 4th of five items unselectable, Tab from the 1st skips the 2nd and reaches the 3rd |
| Focus.TabWrapsAround | channel_surfer.py:180-188 | with the same five items, Tab from the 5th wraps around to the 1st |
| Screens.LayoutSpec | channel_surfer.py:190-203 | every screen ends with a button, and a freshly shown screen's focus is on a selectable item of it |
| Screens.Layout | channel_surfer.py:193-200 | the selectable flags of each screen's widget list (also :211-219, :232-239, :286-293, :354-361, :387-398, :444-448); `LayoutSpec` states their shape |
| Screens.FocusStartsOnFirstSelectable | channel_surfer.py:180-203 | every screen, pile or list box, takes its first key with the focus on its first selectable item: a pile starts there, a list box moves there when first drawn |
| Screens.FirstSelectableAt | channel_surfer.py:180-188 | a selectable item with nothing selectable before it is the first selectable item |
| Screens.FirstTabOnMainMenu | channel_surfer.py:156-203 | right after start the main menu's first button has the focus, and Tab moves it to the second |
| Screens.TabLandsOnSelectable | channel_surfer.py:156-168 | on every screen, Tab and Shift-Tab from any item land on a selectable item |
| Screens.DrillDownDepths | channel_surfer.py:205-282 | in a drill-down from the main menu, the screen at index `i` lies `i` steps deep |
| Screens.HistoryShape | channel_surfer.py:438-459 | a history holds one to five screens, starts at the main menu or at a submitting screen, and has a message only on top |
| Screens.EndpointMenuHistory | channel_surfer.py:253-255 | when the endpoint menu is shown, no device list lies in the history, so fetching new sources leaves every pushed screen valid |
| Screens.ReachablePush | channel_surfer.py:205-207 | pushing a screen the top screen opens keeps the history reachable |
| Screens.ReachablePop | channel_surfer.py:453-457 | popping the top screen leaves a reachable history |
| Surfer.ChannelSurferApp.constructor | channel_surfer.py:127-147 | starts on the main menu with the loaded endpoints, nothing selected and nothing pushed |
| Surfer.ChannelSurferApp.HandleInput | channel_surfer.py:156-168 | q and Q leave the loop; Tab and Shift-Tab move the form pile's focus, else the list box's, to `NextFocus` and onto a selectable item; other keys change nothing |
| Surfer.ChannelSurferApp.ExitProgram | channel_surfer.py:461-462 | leaves the main loop and changes nothing else |
| Surfer.ChannelSurferApp.ShowMainMenu | channel_surfer.py:190-203 | shows the main menu, its list box focused on its first button, with nothing pushed |
| Surfer.ChannelSurferApp.SelectEndpoint | channel_surfer.py:205-222 | pushes the main menu once and lists one button per endpoint |
| Surfer.ChannelSurferApp.EndpointSelected | channel_surfer.py:224-242 | the pressed index is always in range; that endpoint is selected, the list pushed once, the endpoint menu shown |
| Surfer.ChannelSurferApp.SelectDevice | channel_surfer.py:253-255 | returns the GET of the selected endpoint's `all_sources.json`, stores the sources of its answer (none on failure) and lists them, pushing the endpoint menu once |
| Surfer.ChannelSurferApp.ShowDevices | channel_surfer.py:254-269 | pushes the endpoint menu once, keeps the given sources, shows one button per source with a fresh list box, and keeps the history reachable and consistent with the new source count |
| Surfer.ChannelSurferApp.DeviceSelected | channel_surfer.py:271-279 | the pressed source is selected and the form for the list's action opens |
| Surfer.ChannelSurferApp.OpenPrompt | channel_surfer.py:281-297 | pushes the device list once and opens the form, its pile focused on its first field |
| Surfer.ChannelSurferApp.LockChannelPrompt | channel_surfer.py:281-297 | pushes the device list once and opens the channel form |
| Surfer.ChannelSurferApp.SetHoppingModePrompt | channel_surfer.py:310-325 | pushes the device list once and opens the preset menu |
| Surfer.ChannelSurferApp.SetTwoChannelHoppingPrompt | channel_surfer.py:349-365 | pushes the device list once and opens the two-channel form |
| Surfer.ChannelSurferApp.ShowMessage | channel_surfer.py:438-451 | pushes the submitting screen onto the emptied history and shows the message, its list box focused on OK |
| Surfer.ChannelSurferApp.PerformLockChannel | channel_surfer.py:299-308 | sends the lock for the stripped channel text; the message is shown over a history holding only the lock form |
| Surfer.ChannelSurferApp.PerformSetHoppingMode | channel_surfer.py:327-347 | sends the preset's channel string at rate 5; the message is shown over a history holding only the preset menu |
| Surfer.ChannelSurferApp.PerformSetTwoChannelHopping | channel_surfer.py:367-376 | sends the comma-split pieces of the stripped text at rate 6; the message is shown over a history holding only the form |
| Surfer.ChannelSurferApp.AddEndpoint | channel_surfer.py:378-402 | pushes the main menu once and opens the five-field form |
| Surfer.ChannelSurferApp.PerformAddEndpoint | channel_surfer.py:404-415 | appends the stripped record, saves so that loading gives the new list, and shows the confirmation over a history holding only the form |
| Surfer.ChannelSurferApp.AppendEndpoint | channel_surfer.py:412-415 | appends the given record at the end, saves so that loading gives the new list, and shows the confirmation over a history holding only the form, keeping the invariant |
| Surfer.ChannelSurferApp.RemoveEndpoint | channel_surfer.py:417-430 | pushes the main menu once and lists one button per endpoint |
| Surfer.ChannelSurferApp.PerformRemoveEndpoint | channel_surfer.py:432-436 | an index in range: the entry is removed, the list saved, and its name shown over a history holding only the removal list; an index past the end: the application crashes with nothing changed |
| Surfer.ChannelSurferApp.GoBack | channel_surfer.py:453-459 | restores the last pushed screen and shortens the history by one, or shows the main menu when nothing was pushed; forgets both focus containers |
| Surfer.ChannelSurferApp.ShowPrevious | channel_surfer.py:454-457 | pops the last pushed screen back onto the display, the rest of the history unchanged and still reachable, with both focus containers forgotten |
| Surfer.CompletionKeepsSubmittingScreen | channel_surfer.py:414-459 | after adding an endpoint one screen is pushed, the form; OK returns to the form and a second Back to the main menu |
| Surfer.BackFromEndpointList | channel_surfer.py:205-207 | opening the endpoint list and pressing Back shows the main menu with nothing pushed |
| Surfer.RemoveAndAcknowledge | channel_surfer.py:432-459 | removing an in-range entry and pressing OK brings back the same removal list, with nothing pushed |
| Surfer.StaleRemovalTakesWrongEntry | channel_surfer.py:417-436 | with endpoints a, b, c: removing a, then pressing the stale button of b, removes c and leaves only b |
| Surfer.StaleRemovalCrashes | channel_surfer.py:432-436 | with endpoints a, b: removing a, then pressing the stale button of b, crashes |

## Left out

- Rendering: the urwid widgets, `FocusLineBox`, `create_menu_button`, padding, fillers and the
  palette, and the pyfiglet banner. Each screen is reduced to its tag and its selectable flags.
- `run`'s main loop and the mouse. The model starts after `run` has built the main menu.
- `make_request`'s HTTP exchange: the network, Basic authentication, status checks and
  `RequestException`. A reply is an `Option<string>` parameter.
- JSON: `json.dumps` of the payload, `json.load` / `json.dump` of the file, and `response.json()`.
  A command is a datatype, the file is what reading it yields, and decoded lists are inputs.
- Surfer.ChannelSurferApp.PerformSetHoppingMode: does not model the `json.loads` of the reply
  or a reply without `kismet.datasource.hop_channels`, which would raise. The reported channels
  are an input, because JSON decoding is not modelled.
- Client.HoppingResult, Client.SetHoppingMode and Client.SetTwoChannelHopping: do not model the
  `json.loads` of a confirming reply (channel_surfer.py:62, :75), which raises when the reply is
  not JSON or lacks `kismet.datasource.hop_channels`. The reported hop channels are an input.
- Surfer.ChannelSurferApp.PerformSetTwoChannelHopping: does not model the `json.loads` of the
  reply, for the same reason.
- Surfer.ChannelSurferApp.SelectDevice: source records missing the interface, name or uuid key
  are not modelled. A source always has all three, because the listing is decoded outside the
  model. A source without `kismet.datasource.uuid` would raise KeyError in `perform_lock_channel`,
  `perform_set_hopping_mode` and `perform_set_two_channel_hopping` (channel_surfer.py:303, :341,
  :371).
- Endpoints.LoadEndpoints: a configuration file that exists but cannot be opened or read
  (PermissionError, IsADirectoryError, or text not valid in the locale encoding) raises out of
  `__init__` (channel_surfer.py:21-27, :129). The model has no such case; `Malformed` stands only
  for readable text that is not JSON.
- A configuration file that holds valid JSON that is not an endpoint list. The stored file is
  assumed to be one that `save_endpoints` wrote.
- Errors while saving: a file that cannot be written would raise from `save_endpoints`, and
  this is not modelled.
- `get_config_file_path` and the directory it creates.
- A restored screen keeps the focus its widget had when it was pushed. The model does not track
  it, because `go_back` leaves no focus container that Tab could move.
- The three endpoint-menu buttons `lock_channel`, `set_hopping_mode` and
  `set_two_channel_hopping` (channel_surfer.py:244-251) only pass their action name on. They
  are modelled as the `action` argument of `SelectDevice`.
- Surfer.ChannelSurferApp.HandleInput: models only the keys that reach `unhandled_input`.
  urwid first offers each key to the focused widgets. The arrow and page keys move the focus of
  a pile or list box themselves (`pile.focus_position`, the walker's focus), and the model does
  not track that. On a form whose focused field is an Edit, `q` and `Q` are typed into the field
  and do not quit. The model quits on `q` and `Q` on every screen.
- `ExitMainLoop` on q, Q and Exit is modelled as the status `Exited`, and the IndexError of a
  stale removal as `Crashed`. After either, no further operation applies.
