/** The decision rules of the sidebar chat plugin's UI module: which context
    menus offer "Open Sidebar Chat" and what they dispatch, when the sidebar
    renders, when its messages are fetched, the header's display name, the
    popout window's key and title, and the "Switch channels" action. The
    answers of the client's stores (channels, guilds, users, permissions,
    relationships, messages, docked sidebars) are parameters. */
module Sidebar {
  import opened Js
  import opened Store

  /** Channel type of a category, which gets no menu item. */
  const CategoryChannelType: int := 4
  /** Number of messages fetched when the sidebar opens on a channel without any. */
  const FetchLimit: int := 50
  const PopoutKeyPrefix: string := "DISCORD_VC_SC-"
  /** Popout title used when the header has no truthy name. */
  const DefaultPopoutTitle: string := "Vencord"
  const PopoutDefaultWidth: int := 854
  const PopoutDefaultHeight: int := 480
  const MenuItemIdPrefix: string := "vc-sidebar-chat-"
  const MenuItemLabel: string := "Open Sidebar Chat"

  datatype User = User(id: string, username: string, globalName: Option<string>)

  /** A channel. `recipientId` is what `isPrivate() ? getRecipientId() : null`
      evaluates to; `guildId` is absent for private channels. */
  datatype Channel = Channel(id: string, guildId: Option<string>, kind: int, name: string, recipientId: Option<string>)

  datatype Guild = Guild(id: string)

  /** A context-menu entry: its element id, its label text, and the open request its action dispatches. */
  datatype MenuItem = MenuItem(id: string, text: string, request: OpenRequest)

  /** `MakeContextMenu`. Its element id embeds the free name `name`, which in
      the client resolves to the global window name, given here as `windowName`. */
  function MakeContextMenu(windowName: string, id: string, guildId: Option<string>): (item: MenuItem)
    ensures item.id == MenuItemIdPrefix + windowName
    ensures item.request == OpenRequest(guildId, id)
    ensures item.text == MenuItemLabel
  {
    MenuItem(MenuItemIdPrefix + windowName, MenuItemLabel, OpenRequest(guildId, id))
  }

  // ---------------------------------------------------------------------------
  // Context menus

  /** How a context-menu patch callback ends, as written: by throwing, by
      returning early, or by pushing one item. */
  datatype PatchOutcome = Threw | Unchanged | Pushed(request: OpenRequest)

  /** `UserContextPatch` as written: the `checks` array is built before it is
      inspected, so `args.user.id` is read even when there is no user. */
  function UserContextPatchAsWritten(user: Option<User>, currentUserId: string): (r: PatchOutcome)
    ensures user.None? ==> r == Threw
  {
    match user
    case None => Threw
    case Some(u) =>
      if SomeFalsy([true, u.id != currentUserId]) then Unchanged
      else Pushed(OpenRequest(None, u.id))
  }

  /** The user menu offers the sidebar exactly for a user other than the
      current one, and opens a direct message with that user. A missing user
      gets no item. */
  function UserMenuRequest(user: Option<User>, currentUserId: string): (r: Option<OpenRequest>)
    ensures r.Some? <==> user.Some? && user.value.id != currentUserId
    ensures r.Some? ==> r.value == OpenRequest(None, user.value.id)
  {
    if user.None? then None
    else
      var checks := [true, user.value.id != currentUserId];
      if SomeFalsy(checks) then None
      else assert checks[1]; Some(OpenRequest(None, user.value.id))
  }

  /** `ChannelContextPatch` as written: `args.channel.type` is read while the
      `checks` array is built, so a missing channel throws. */
  function ChannelContextPatchAsWritten(channel: Option<Channel>, canView: bool): (r: PatchOutcome)
    ensures channel.None? ==> r == Threw
  {
    match channel
    case None => Threw
    case Some(c) =>
      if SomeFalsy([true, c.kind != CategoryChannelType, canView]) then Unchanged
      else Pushed(OpenRequest(c.guildId, c.id))
  }

  /** The channel menu offers the sidebar exactly for a channel that is not a
      category and that the user may view (`canView`), and opens that channel
      in its own guild. A missing channel gets no item. */
  function ChannelMenuRequest(channel: Option<Channel>, canView: bool): (r: Option<OpenRequest>)
    ensures r.Some? <==> channel.Some? && channel.value.kind != CategoryChannelType && canView
    ensures r.Some? ==> r.value == OpenRequest(channel.value.guildId, channel.value.id)
  {
    if channel.None? then None
    else
      var checks := [true, channel.value.kind != CategoryChannelType, canView];
      if SomeFalsy(checks) then None
      else assert checks[1] && checks[2]; Some(OpenRequest(channel.value.guildId, channel.value.id))
  }

  /** Where a user or channel is given, the patch as written and the corrected
      one agree; where it is missing, the one as written throws. */
  lemma UserPatchAsWrittenVersusCorrected(user: Option<User>, currentUserId: string)
    ensures user.None? ==> UserContextPatchAsWritten(user, currentUserId) == Threw && UserMenuRequest(user, currentUserId).None?
    ensures user.Some? ==>
      UserContextPatchAsWritten(user, currentUserId)
      == (match UserMenuRequest(user, currentUserId) case None => Unchanged case Some(q) => Pushed(q))
  {
  }

  lemma ChannelPatchAsWrittenVersusCorrected(channel: Option<Channel>, canView: bool)
    ensures channel.None? ==> ChannelContextPatchAsWritten(channel, canView) == Threw && ChannelMenuRequest(channel, canView).None?
    ensures channel.Some? ==>
      ChannelContextPatchAsWritten(channel, canView)
      == (match ChannelMenuRequest(channel, canView) case None => Unchanged case Some(q) => Pushed(q))
  {
  }

  /** The `children` array a context-menu patch appends to. */
  class MenuChildren {
    var items: seq<MenuItem>

    constructor (items: seq<MenuItem>)
      ensures this.items == items
    {
      this.items := items;
    }
  }

  /** Zero or one items, for an optional request. */
  function ItemsFor(windowName: string, request: Option<OpenRequest>): (items: seq<MenuItem>)
    ensures |items| == if request.Some? then 1 else 0
    ensures request.Some? ==> items[0].request == request.value
  {
    match request
    case None => []
    case Some(q) => [MakeContextMenu(windowName, q.id, q.guildId)]
  }

  /** `UserContextPatch`: appends the item in place, or leaves `children` as it
      was. As written, it throws (`threw`) when there is no user, because the
      `checks` array reads `args.user.id` before it is inspected. */
  method UserContextPatch(children: MenuChildren, user: Option<User>, currentUserId: string, windowName: string)
    returns (threw: bool)
    modifies children
    ensures threw <==> user.None?
    ensures threw ==> children.items == old(children.items)
    ensures children.items == old(children.items) + ItemsFor(windowName, UserMenuRequest(user, currentUserId))
  {
    if user.None? {
      threw := true;
      return;
    }
    threw := false;
    var checks := [true, user.value.id != currentUserId];
    if SomeFalsy(checks) {
      return;
    }
    children.items := children.items + [MakeContextMenu(windowName, user.value.id, None)];
  }

  /** `ChannelContextPatch`: appends the item in place, or leaves `children` as
      it was. As written, it throws (`threw`) when there is no channel, because
      the `checks` array reads `args.channel.type` before it is inspected. */
  method ChannelContextPatch(children: MenuChildren, channel: Option<Channel>, canView: bool, windowName: string)
    returns (threw: bool)
    modifies children
    ensures threw <==> channel.None?
    ensures threw ==> children.items == old(children.items)
    ensures children.items == old(children.items) + ItemsFor(windowName, ChannelMenuRequest(channel, canView))
  {
    if channel.None? {
      threw := true;
      return;
    }
    threw := false;
    var checks := [true, channel.value.kind != CategoryChannelType, canView];
    if SomeFalsy(checks) {
      return;
    }
    children.items := children.items + [MakeContextMenu(windowName, channel.value.id, channel.value.guildId)];
  }

  // ---------------------------------------------------------------------------
  // Rendering

  function Lookup<V>(m: map<string, V>, key: string): (r: Option<V>)
    ensures r.Some? <==> key in m
    ensures r.Some? ==> r.value == m[key]
  {
    if key in m then Some(m[key]) else None
  }

  /** What `renderSidebar` produces: nothing, or the sidebar for a channel and its guild. */
  datatype SidebarView = Hidden | Shown(channel: Channel, guild: Option<Guild>)

  /** The render gate. `channels` and `guilds` are the channel and guild
      stores; `channelSidebar` and `guildSidebar` say whether the currently
      selected channel or guild already has a docked sidebar. */
  function RenderSidebar(state: State, channels: map<string, Channel>, guilds: map<string, Guild>,
                         channelSidebar: bool, guildSidebar: bool): (r: SidebarView)
    ensures r.Shown? <==> state.channelId in channels && !channelSidebar && !guildSidebar
    ensures r.Shown? ==> r.channel == channels[state.channelId] && r.guild == Lookup(guilds, state.guildId)
  {
    var guild := Lookup(guilds, state.guildId);
    var channel := Lookup(channels, state.channelId);
    if channel.None? || channelSidebar || guildSidebar then Hidden
    else Shown(channel.value, guild)
  }

  /** With no session open (no channel is stored under the empty id), nothing
      renders, whatever the docked-sidebar signals say. */
  lemma NoSessionNeverRenders(state: State, channels: map<string, Channel>, guilds: map<string, Guild>,
                              channelSidebar: bool, guildSidebar: bool)
    requires state.channelId == "" && "" !in channels
    ensures RenderSidebar(state, channels, guilds, channelSidebar, guildSidebar) == Hidden
  {
  }

  /** After the close action the sidebar is hidden. */
  lemma ClosedSidebarIsHidden(s: State, channels: map<string, Channel>, guilds: map<string, Guild>,
                              channelSidebar: bool, guildSidebar: bool)
    requires "" !in channels
    ensures RenderSidebar(Closed(s), channels, guilds, channelSidebar, guildSidebar) == Hidden
  {
  }

  /** After a guild open of a known channel, with no docked sidebar in the
      main view, the sidebar shows that channel in that guild. */
  lemma GuildOpenRenders(s: State, request: OpenRequest, channels: map<string, Channel>, guilds: map<string, Guild>)
    requires IsGuildOpen(request) && request.id in channels
    ensures RenderSidebar(Opened(s, request), channels, guilds, false, false)
            == Shown(channels[request.id], Lookup(guilds, request.guildId.value))
  {
  }

  /** The request the sidebar's mount effect sends to the message store. */
  datatype FetchMessages = FetchMessages(channelId: string, limit: int)

  /** Messages are fetched only for a channel with a truthy id for which the
      message store holds no last message (`hasLastMessage`). */
  function MessagesToFetch(channel: Option<Channel>, hasLastMessage: set<string>): (r: Option<FetchMessages>)
    ensures r.Some? <==> channel.Some? && channel.value.id != "" && channel.value.id !in hasLastMessage
    ensures r.Some? ==> r.value.channelId == channel.value.id && r.value.limit == 50
  {
    if channel.None? || channel.value.id == "" || channel.value.id in hasLastMessage then None
    else Some(FetchMessages(channel.value.id, FetchLimit))
  }

  // ---------------------------------------------------------------------------
  // Header

  /** `user?.globalName` */
  function GlobalNameOf(user: Option<User>): Option<string>
  {
    match user
    case None => None
    case Some(u) => u.globalName
  }

  /** `user?.username` */
  function UsernameOf(user: Option<User>): Option<string>
  {
    match user
    case None => None
    case Some(u) => Some(u.username)
  }

  /** The header's display name. `nickname` is the relationship store's
      nickname for the recipient and `user` the user store's entry for it. A
      channel that is not private, or that has a name, shows its name; a
      private channel without a name shows the first truthy of the nickname,
      the global name and the username. */
  function HeaderName(channel: Channel, nickname: Option<string>, user: Option<User>): (r: Option<string>)
    ensures !Truthy(channel.recipientId) || channel.name != "" ==> r == Some(channel.name)
    ensures Truthy(channel.recipientId) && channel.name == "" ==>
      (Truthy(r) <==> Truthy(nickname) || Truthy(GlobalNameOf(user)) || Truthy(UsernameOf(user)))
  {
    if !Truthy(channel.recipientId) || channel.name != "" then Some(channel.name)
    else Or(Or(nickname, GlobalNameOf(user)), UsernameOf(user))
  }

  /** When the header falls back on the recipient's names, a truthy result is
      the first truthy one of nickname, global name and username. */
  lemma HeaderNameIsFirstTruthy(channel: Channel, nickname: Option<string>, user: Option<User>)
    requires Truthy(channel.recipientId) && channel.name == ""
    ensures var r := HeaderName(channel, nickname, user);
            Truthy(r) ==> r == FirstTruthy([nickname, GlobalNameOf(user), UsernameOf(user)])
  {
    var candidates := [nickname, GlobalNameOf(user), UsernameOf(user)];
    var rest := [GlobalNameOf(user), UsernameOf(user)];
    assert candidates[1..] == rest && rest[1..] == [UsernameOf(user)];
    if !Truthy(nickname) {
      assert FirstTruthy(candidates) == FirstTruthy(rest);
      if !Truthy(GlobalNameOf(user)) {
        assert FirstTruthy(rest) == FirstTruthy([UsernameOf(user)]);
      }
    }
  }

  /** The popout window's key: one per channel. */
  function PopoutKey(channelId: string): string
  {
    PopoutKeyPrefix + channelId
  }

  /** Distinct channels get distinct popout windows. */
  lemma PopoutKeyInjective(a: string, b: string)
    ensures PopoutKey(a) == PopoutKey(b) <==> a == b
  {
    if PopoutKey(a) == PopoutKey(b) {
      var n := |PopoutKeyPrefix|;
      assert a == PopoutKey(a)[n..];
      assert b == PopoutKey(b)[n..];
    }
  }

  /** The arguments of the popout-open call made by the header. */
  datatype PopoutOpen = PopoutOpen(windowKey: string, channel: Channel, name: Option<string>,
                                   defaultWidth: int, defaultHeight: int)

  /** The props of the popout window that call renders. */
  datatype PopoutWindow = PopoutWindow(windowKey: string, title: string, channelId: string)

  function OpenPopout(channel: Channel, name: Option<string>): (p: PopoutOpen)
    ensures p.windowKey == PopoutKey(channel.id)
    ensures p.channel == channel && p.name == name
    ensures p.defaultWidth == 854 && p.defaultHeight == 480
  {
    PopoutOpen(PopoutKey(channel.id), channel, name, PopoutDefaultWidth, PopoutDefaultHeight)
  }

  /** The popout's title is never empty: the name when it is truthy, else "Vencord". */
  function RenderPopout(channel: Channel, name: Option<string>): (w: PopoutWindow)
    ensures w.title != ""
    ensures Truthy(name) ==> w.title == name.value
    ensures !Truthy(name) ==> w.title == "Vencord"
    ensures w.channelId == channel.id
    ensures w.windowKey == "DISCORD_VC_SC-" + channel.id
  {
    PopoutWindow("DISCORD_VC_SC-" + channel.id, OrEmpty(Or(name, Some(DefaultPopoutTitle))), channel.id)
  }

  /** The window the popout-open call renders carries the key it was opened
      under (the two keys are written separately in the source), and that key
      determines the channel. */
  lemma PopoutWindowMatchesOpen(channel: Channel, name: Option<string>, other: Channel)
    ensures RenderPopout(OpenPopout(channel, name).channel, OpenPopout(channel, name).name).windowKey
            == OpenPopout(channel, name).windowKey
    ensures OpenPopout(channel, name).windowKey == OpenPopout(other, name).windowKey <==> channel.id == other.id
  {
    PopoutKeyInjective(channel.id, other.id);
  }

  /** "Switch channels" dispatches an open for the sidebar's own channel, in
      its own guild (the main view then navigates to that channel). */
  function SwitchChannels(channel: Channel): (r: OpenRequest)
    ensures r.guildId == channel.guildId && r.id == channel.id
  {
    OpenRequest(channel.guildId, channel.id)
  }

  /** For a guild channel the sidebar already shows, switching leaves the
      session exactly as it was. */
  lemma SwitchKeepsGuildSession(s: State, channel: Channel)
    requires Truthy(channel.guildId) && s.guildId == channel.guildId.value && s.channelId == channel.id
    ensures Opened(s, SwitchChannels(channel)) == s
  {
  }

  /** For a private channel, switching takes the direct-message path with the
      channel's own id as the person to look up, and clears the guild. */
  lemma SwitchOnPrivateChannelSuspends(s: State, channel: Channel)
    requires !Truthy(channel.guildId)
    ensures !IsGuildOpen(SwitchChannels(channel))
    ensures Opened(s, SwitchChannels(channel)) == s.(guildId := "")
  {
  }
}
