/**
 * The Kismet remote API client: which request each channel command sends, and how the reply is
 * judged. The HTTP exchange itself is not modelled: a reply is `Some(body)` when the request
 * went through with a success status and `None` when `make_request` caught a request error.
 * Success is decided by a literal substring test on the reply body, as the code does.
 */
module Client {
  import opened Options
  import opened Strings
  import opened Endpoints

  /** One capture interface of a Kismet server, as listed by `all_sources.json`. */
  datatype DataSource = DataSource(interface: string, name: string, uuid: string)

  /** The JSON command object posted in the `json` form field. Both kinds go to `set_channel.cmd`. */
  datatype Command =
    | SetChannel(channel: string)                             // {"channel": channel}
    | SetHopping(rate: int, channels: Option<seq<string>>)    // {"hop": true, "rate": rate[, "channels": [...]]}

  datatype Verb = Get | Post

  /** An HTTP request with Basic authentication by the endpoint's user name and password. */
  datatype Request = Request(verb: Verb, url: string, user: string, password: string, command: Option<Command>)

  /** The `(success, message)` pair every command returns. */
  datatype CommandResult = CommandResult(success: bool, message: string)

  /** What one command call sends and what it reports. */
  datatype Call = Call(request: Request, result: CommandResult)

  /** The reply to the source listing: unreachable, not JSON, or the decoded list. */
  datatype SourceListing = Unreachable | Undecodable | Listed(sources: seq<DataSource>)

  /** The hop rate of the multi-channel hopping flow. */
  const MultiChannelHopRate := 5

  /** The hop rate of the two-channel hopping flow. */
  const TwoChannelHopRate := 6

  function SetChannelUrl(endpoint: Endpoint, uuid: string): string {
    endpoint.url + "/datasource/by-uuid/" + uuid + "/set_channel.cmd"
  }

  function PostCommand(endpoint: Endpoint, uuid: string, command: Command): Request {
    Request(Post, SetChannelUrl(endpoint, uuid), endpoint.user, endpoint.password, Some(command))
  }

  /** The text a reply must contain for a lock onto `channel` to count as applied. */
  function LockConfirmation(channel: string): string {
    "\"kismet.datasource.channel\": \"" + channel + "\""
  }

  /** The text a reply must contain for a hopping command to count as applied. */
  const HoppingConfirmation := "\"kismet.datasource.hopping\": 1"

  /** The GET request `get_datasources` issues. */
  function SourcesRequest(endpoint: Endpoint): (r: Request)
    ensures r.verb == Get && r.command == None
    ensures r.url == endpoint.url + "/datasource/all_sources.json"
    ensures r.user == endpoint.user && r.password == endpoint.password
  {
    Request(Get, endpoint.url + "/datasource/all_sources.json", endpoint.user, endpoint.password, None)
  }

  /** `get_datasources`: the listed sources, or none at all when the listing failed. */
  function GetDatasources(listing: SourceListing): (sources: seq<DataSource>)
    ensures listing.Listed? ==> sources == listing.sources
    ensures !listing.Listed? ==> sources == []
  {
    if listing.Listed? then listing.sources else []
  }

  /**
   * `format_hop_channels`: the channels joined by single spaces, with every double quote and
   * square bracket removed.
   */
  function FormatHopChannels(channels: seq<string>): string {
    StripPunctuation(Join(channels, ' '))
  }

  /** No double quote and no square bracket: nothing `format_hop_channels` would remove. */
  predicate Unbracketed(s: string) {
    '"' !in s && '[' !in s && ']' !in s
  }

  /** The three `replace` calls of `format_hop_channels`. */
  function StripPunctuation(s: string): (r: string)
    ensures Unbracketed(r)
    ensures forall c :: c in r <==> c in s && c != '"' && c != '[' && c != ']'
  {
    Without(Without(Without(s, '"'), '['), ']')
  }

  /** Removing the punctuation distributes over concatenation: nothing else is dropped or reordered. */
  lemma StripPunctuationAppend(a: string, b: string)
    ensures StripPunctuation(a + b) == StripPunctuation(a) + StripPunctuation(b)
  {
    WithoutAppend(a, b, '"');
    WithoutAppend(Without(a, '"'), Without(b, '"'), '[');
    WithoutAppend(Without(Without(a, '"'), '['), Without(Without(b, '"'), '['), ']');
  }

  /** On one character: a quote or bracket disappears, any other character stays. */
  lemma StripPunctuationSingle(x: char)
    ensures StripPunctuation([x]) == if x == '"' || x == '[' || x == ']' then [] else [x]
  {
    WithoutSingle(x, '"');
    WithoutSingle(x, '[');
    WithoutSingle(x, ']');
  }

  /** Removing the punctuation a second time changes nothing. */
  lemma StripPunctuationIdempotent(s: string)
    ensures StripPunctuation(StripPunctuation(s)) == StripPunctuation(s)
  {
  }

  /**
   * The displayed hop list holds no quotes or brackets; when no channel holds any, it is exactly
   * the channels joined with single spaces.
   */
  lemma FormatHopChannelsSpec(channels: seq<string>)
    ensures var r := FormatHopChannels(channels);
      && Unbracketed(r)
      && ((forall i :: 0 <= i < |channels| ==> Unbracketed(channels[i]))
          ==> r == Join(channels, ' '))
  {
    if forall i :: 0 <= i < |channels| ==> Unbracketed(channels[i]) {
      JoinChars(channels, ' ', '"');
      JoinChars(channels, ' ', '[');
      JoinChars(channels, ' ', ']');
    }
  }

  /**
   * `lock_channel`: posts `{"channel": channel}` to the source's `set_channel.cmd` and reports
   * success exactly when a reply came back whose text contains the channel confirmation. The
   * message says which verdict it is and names the channel and the interface.
   */
  function LockChannel(endpoint: Endpoint, uuid: string, channel: string, interface: string,
                       response: Option<string>): (call: Call)
    ensures call.request.verb == Post && call.request.url == SetChannelUrl(endpoint, uuid)
    ensures call.request.user == endpoint.user && call.request.password == endpoint.password
    ensures call.request.command == Some(SetChannel(channel))
    ensures call.result.success <==> response.Some? && Contains(response.value, LockConfirmation(channel))
    ensures call.result.success ==>
      call.result.message == "Successfully locked channel " + channel + " on device " + interface
    ensures !call.result.success ==>
      call.result.message == "Failed to lock channel " + channel + " on device " + interface
    ensures Contains(call.result.message, channel) && Contains(call.result.message, interface)
  {
    var request := PostCommand(endpoint, uuid, SetChannel(channel));
    if response.Some? && Contains(response.value, LockConfirmation(channel)) then
      LockMessageNames("Successfully locked channel ", channel, interface);
      Call(request, CommandResult(true, "Successfully locked channel " + channel + " on device " + interface))
    else
      LockMessageNames("Failed to lock channel ", channel, interface);
      Call(request, CommandResult(false, "Failed to lock channel " + channel + " on device " + interface))
  }

  /** A lock message, whichever its opening words, names the channel and the interface. */
  lemma LockMessageNames(opening: string, channel: string, interface: string)
    ensures var message := opening + channel + " on device " + interface;
      Contains(message, channel) && Contains(message, interface)
  {
    ContainsInfix(opening, channel, " on device " + interface);
    ContainsInfix(opening + channel + " on device ", interface, "");
    assert opening + channel + " on device " + interface == opening + channel + (" on device " + interface);
    assert opening + channel + " on device " + interface == opening + channel + " on device " + interface + "";
  }

  /**
   * The payload of `set_hopping_mode`: always hopping at the given rate; a `channels` list only
   * for a non-empty channel string, and then the pieces between its commas.
   */
  function HoppingPayload(rate: int, channels: string): Command {
    SetHopping(rate, if channels != "" then Some(Split(channels, ',')) else None)
  }

  /**
   * The `channels` list of a hopping payload is present exactly for a non-empty channel string;
   * it then holds no comma and joins back to that string.
   */
  lemma HoppingPayloadSpec(rate: int, channels: string)
    ensures var c := HoppingPayload(rate, channels);
      && c.SetHopping? && c.rate == rate
      && (c.channels.Some? <==> channels != "")
      && (c.channels.Some? ==>
            && |c.channels.value| >= 1
            && (forall i :: 0 <= i < |c.channels.value| ==> ',' !in c.channels.value[i])
            && Join(c.channels.value, ',') == channels)
  {
    JoinSplit(channels, ',');
  }

  /**
   * The verdict shared by both hopping commands: success exactly when a reply came back whose
   * text contains the hopping confirmation; on success the message lists the hop channels the
   * server reports, formatted for display.
   */
  function HoppingResult(interface: string, response: Option<string>, hopChannels: seq<string>): (r: CommandResult)
    ensures r.success <==> response.Some? && Contains(response.value, HoppingConfirmation)
    ensures r.success ==> r.message == "Successfully set hopping mode on device " + interface
                                       + "\nNew hop channels: " + FormatHopChannels(hopChannels)
    ensures !r.success ==> r.message == "Failed to set hopping mode on device " + interface
    ensures Contains(r.message, interface)
  {
    if response.Some? && Contains(response.value, HoppingConfirmation) then
      var formatted := FormatHopChannels(hopChannels);
      ContainsInfix("Successfully set hopping mode on device ", interface, "\nNew hop channels: " + formatted);
      assert "Successfully set hopping mode on device " + interface + "\nNew hop channels: " + formatted
          == "Successfully set hopping mode on device " + interface + ("\nNew hop channels: " + formatted);
      CommandResult(true, "Successfully set hopping mode on device " + interface + "\nNew hop channels: " + formatted)
    else
      ContainsInfix("Failed to set hopping mode on device ", interface, "");
      assert "Failed to set hopping mode on device " + interface + "" == "Failed to set hopping mode on device " + interface;
      CommandResult(false, "Failed to set hopping mode on device " + interface)
  }

  /**
   * `set_hopping_mode`: posts the hopping payload for `rate` and `channels` to the source's
   * `set_channel.cmd`; the verdict is `HoppingResult`.
   */
  function SetHoppingMode(endpoint: Endpoint, uuid: string, rate: int, channels: string, interface: string,
                          response: Option<string>, hopChannels: seq<string>): (call: Call)
    ensures call.request.verb == Post && call.request.url == SetChannelUrl(endpoint, uuid)
    ensures call.request.user == endpoint.user && call.request.password == endpoint.password
    ensures call.request.command == Some(HoppingPayload(rate, channels))
    ensures call.result == HoppingResult(interface, response, hopChannels)
  {
    Call(PostCommand(endpoint, uuid, HoppingPayload(rate, channels)), HoppingResult(interface, response, hopChannels))
  }

  /**
   * `set_two_channel_hopping`: posts hopping at rate 6 with the given channel list as it is (its
   * length is not checked); the verdict is `HoppingResult`.
   */
  function SetTwoChannelHopping(endpoint: Endpoint, uuid: string, channels: seq<string>, interface: string,
                                response: Option<string>, hopChannels: seq<string>): (call: Call)
    ensures call.request.verb == Post && call.request.url == SetChannelUrl(endpoint, uuid)
    ensures call.request.user == endpoint.user && call.request.password == endpoint.password
    ensures call.request.command == Some(SetHopping(6, Some(channels)))
    ensures call.result == HoppingResult(interface, response, hopChannels)
  {
    Call(PostCommand(endpoint, uuid, SetHopping(TwoChannelHopRate, Some(channels))),
         HoppingResult(interface, response, hopChannels))
  }

  /** The 2.4 GHz preset: channels 1 to 11 and 14. */
  const Channels24: seq<string> := ["1", "2", "3", "4", "5", "6", "7", "8", "9", "10", "11", "14"]

  /** The 5 GHz preset. */
  const Channels5: seq<string> :=
    ["36", "40", "44", "48", "52", "56", "60", "64",
     "100", "104", "108", "112", "116", "120", "124", "128", "132", "136", "140", "144",
     "149", "153", "157", "161", "165", "169", "173", "177"]

  /** The channel list behind each preset button of the hopping menu; none for any other action. */
  function PresetList(action: string): seq<string> {
    if action == "hop_2_4ghz" then Channels24
    else if action == "hop_5ghz" then Channels5
    else if action == "hop_both" then Channels24 + Channels5
    else []
  }

  /**
   * The channel string `perform_set_hopping_mode` sends for a preset button: the preset's
   * channels written out with commas. An unknown action gives the empty string.
   */
  function PresetChannels(action: string): string {
    Join(PresetList(action), ',')
  }

  /** A channel that survives a round trip through a comma-joined string: non-empty, with no comma. */
  predicate Separable(channel: string) {
    channel != "" && ',' !in channel
  }

  /** Every channel of the 2.4 GHz preset is separable. */
  lemma Channels24Separable()
    ensures forall i :: 0 <= i < |Channels24| ==> Separable(Channels24[i])
  {
  }

  /** Every channel of the 5 GHz preset is separable. */
  lemma Channels5Separable()
    ensures forall i :: 0 <= i < |Channels5| ==> Separable(Channels5[i])
  {
  }

  /** Every channel of every preset is separable. */
  lemma PresetListSeparable(action: string)
    ensures forall i :: 0 <= i < |PresetList(action)| ==> Separable(PresetList(action)[i])
  {
    Channels24Separable();
    Channels5Separable();
    var list := PresetList(action);
    forall i | 0 <= i < |list|
      ensures Separable(list[i])
    {
      if action == "hop_both" && i >= |Channels24| {
        assert list[i] == Channels5[i - |Channels24|];
      }
    }
  }

  /** Separable channels joined with commas split back into the same list, and the join is not empty. */
  lemma SplitSeparableJoin(channels: seq<string>)
    requires |channels| >= 1
    requires forall i :: 0 <= i < |channels| ==> Separable(channels[i])
    ensures Split(Join(channels, ','), ',') == channels
    ensures Join(channels, ',') != ""
  {
    SplitJoin(channels, ',');
    assert Split("", ',') == [""];
    assert channels != [""] by {
      assert Separable(channels[0]);
    }
  }

  /**
   * The three preset buttons, and only they, send a channel list: the hopping payload then
   * carries exactly the preset's channels, in order. Any other action sends the empty channel
   * string, so the payload has no `channels` key.
   */
  lemma PresetPayload(action: string)
    ensures PresetList(action) != [] <==> action == "hop_2_4ghz" || action == "hop_5ghz" || action == "hop_both"
    ensures PresetList(action) != [] ==>
      HoppingPayload(MultiChannelHopRate, PresetChannels(action)) == SetHopping(5, Some(PresetList(action)))
    ensures PresetList(action) == [] ==>
      PresetChannels(action) == "" && HoppingPayload(MultiChannelHopRate, PresetChannels(action)) == SetHopping(5, None)
  {
    var list := PresetList(action);
    if list != [] {
      PresetListSeparable(action);
      SplitSeparableJoin(list);
    }
  }

  /**
   * The 2.4 GHz preset has 12 channels (1 to 11, then 14), the 5 GHz preset 28, and the combined
   * preset is the first followed by the second, 40 channels.
   */
  lemma PresetSizes()
    ensures |PresetList("hop_2_4ghz")| == 12 && PresetList("hop_2_4ghz")[11] == "14"
    ensures |PresetList("hop_5ghz")| == 28
    ensures PresetList("hop_both") == PresetList("hop_2_4ghz") + PresetList("hop_5ghz")
    ensures |PresetList("hop_both")| == 40
  {
  }

  /** The combined preset string is the 2.4 GHz string, a comma and the 5 GHz string. */
  lemma PresetBothString()
    ensures PresetChannels("hop_both") == PresetChannels("hop_2_4ghz") + "," + PresetChannels("hop_5ghz")
  {
    JoinAppend(Channels24, Channels5, ',');
  }

  /** The channel sits in its confirmation text right after the 30-character key. */
  lemma LockConfirmationHolds(channel: string, k: int)
    requires 0 <= k < |channel|
    ensures 30 + k < |LockConfirmation(channel)| && LockConfirmation(channel)[30 + k] == channel[k]
  {
  }

  /** A reply that embeds the confirmation of the requested channel anywhere counts as a lock. */
  lemma LockConfirmedReply(endpoint: Endpoint, uuid: string, channel: string, interface: string,
                           before: string, after: string)
    ensures LockChannel(endpoint, uuid, channel, interface, Some(before + LockConfirmation(channel) + after)).result.success
  {
    ContainsInfix(before, LockConfirmation(channel), after);
  }

  /**
   * When the request failed and no reply came back, the lock is reported as failed, for every
   * channel, the empty one included.
   */
  lemma LockWithoutReply(endpoint: Endpoint, uuid: string, channel: string, interface: string)
    ensures var r := LockChannel(endpoint, uuid, channel, interface, None).result;
      !r.success && r.message == "Failed to lock channel " + channel + " on device " + interface
  {
  }

  /**
   * A reply that lacks one of the requested channel's characters, such as the confirmation of
   * channel 11 when channel 6 was requested, does not count as a lock.
   */
  lemma LockRejectedReply(endpoint: Endpoint, uuid: string, channel: string, interface: string,
                          reply: string, k: int)
    requires 0 <= k < |channel| && channel[k] !in reply
    ensures !LockChannel(endpoint, uuid, channel, interface, Some(reply)).result.success
  {
    LockConfirmationHolds(channel, k);
    NotContainsMissingChar(reply, LockConfirmation(channel), channel[k]);
  }

  /** A reported hop list of three plain channels, such as `["1", "6", "11"]`, is displayed as `1 6 11`. */
  lemma FormatThreeChannels(channels: seq<string>)
    requires |channels| == 3
    requires forall i :: 0 <= i < 3 ==> Unbracketed(channels[i])
    ensures FormatHopChannels(channels) == channels[0] + " " + channels[1] + " " + channels[2]
  {
    FormatHopChannelsSpec(channels);
    JoinThree(channels, ' ');
  }

  /** A reply that embeds the hopping confirmation anywhere counts as hopping set. */
  lemma HoppingConfirmedReply(interface: string, before: string, after: string, hopChannels: seq<string>)
    ensures HoppingResult(interface, Some(before + HoppingConfirmation + after), hopChannels).success
  {
    ContainsInfix(before, HoppingConfirmation, after);
  }

  /** A reply with no `1` in it, such as one reporting hopping `0`, does not count as hopping set. */
  lemma HoppingRejectedReply(interface: string, reply: string, hopChannels: seq<string>)
    requires '1' !in reply
    ensures !HoppingResult(interface, Some(reply), hopChannels).success
  {
    assert HoppingConfirmation[29] == '1';
    NotContainsMissingChar(reply, HoppingConfirmation, '1');
  }
}
