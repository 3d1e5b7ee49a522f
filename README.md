# Sidebar chat: session store and decision rules

A model of the core of the Vencord "SidebarChat" plugin. The plugin shows a
second conversation, either a guild channel or a direct message, beside the
main view. It can also detach that conversation into a popout window.

- `js.dfy` (module `Js`): the JavaScript features the source relies on.
  - `null`/`undefined` values, as `Option`.
  - Truthiness of strings and numbers.
  - The `||` operator.
  - `Array.prototype.some` over a `checks` array, as `SomeFalsy`.
- `store.dfy` (module `Store`): the session store of `store.ts`.
  - The class `SidebarStore` holds the three closure variables `guildId`, `channelId` and `width`. Its methods are `Initialize`, `GetState`, `BeginOpen`, `CompleteDmResolution` and `Close`.
  - The open action is asynchronous on its direct-message path. It is split at its `await`: `BeginOpen` runs up to the lookup; `CompleteDmResolution` runs after it, and the channel id the lookup returns is its argument.
  - Each method is specified by a pure transition on `State` (`Initialized`, `Opened`, `Resolved`, `Closed`).
  - The object invariant `Valid()` says the fields equal `Run(Empty, trace)`, the fold of every write so far. It also ties the `emits` counter (calls to `emitChange`) and the number of pending lookups to the same trace.
  - The setting `persistSidebar` defaults to true (`PersistSidebarDefault`). `Initialize` receives its value as a parameter.
- `sidebar.dfy` (module `Sidebar`): the pure rules of `index.tsx`.
  - The context-menu eligibility and payloads, plus the two patch callbacks that append to `children` in place.
  - The render gate and the fetch-on-open condition.
  - The header's name fallback.
  - The popout key and title.
  - The "Switch channels" payload.
  - The answers of the client's stores are parameters: channels, guilds, users, relationships, permissions, the message store and the docked-sidebar state.

Flux dispatch becomes direct method calls, and `emitChange` becomes the `emits` counter.

Where the code and the design of the system differ, the model follows the code:

- The open action has no request token. A direct-message lookup that returns after a later open still writes `channelId` (store.ts:60). `StaleResolutionOverwrites` and `RaceScenario` show the result: the guild of the later guild open paired with the direct-message channel. `ResolutionAfterCloseReopens` shows that a lookup returning after a close re-opens the closed sidebar. A "last request wins" policy does not hold.
- With persistence switched off, or with no snapshot, `initialize` leaves the state as it was (store.ts:33). It does not reset the state to empty; a fresh store is empty anyway.
- A direct-message open sets `guildId` to `""` and leaves `channelId` at its old value (store.ts:52); `channelId` is not cleared. Only the lookup's return (store.ts:60), or a later open, close or initialize, writes these fields again.
- The render gate tests whether the stored channel id resolves in the channel store, not whether the id is empty (index.tsx:198). `NoSessionNeverRenders` derives the "no session, no sidebar" rule from the fact that no channel is stored under `""`.

Observations the model makes explicit without claiming them as defects:

- The menu item's element id uses a free identifier `name` (index.tsx:95). In the client that resolves to the global window name, so `MakeContextMenu` takes it as `windowName`.
- "Switch channels" dispatches an open for the sidebar's own channel (index.tsx:249-254), so the sidebar keeps its session (`SwitchKeepsGuildSession`).
- On a private channel, "Switch channels" takes the direct-message path with the channel's own id as the person to look up (`SwitchOnPrivateChannelSuspends`). The same happens for the group-DM context menu.

## Model

| member | source | states |
|---|---|---|
| `Js.SomeFalsy` | index.tsx:114 | `checks.some(check => !check)` is true exactly when some check is falsy |
| `Js.OrEmpty` | store.ts:35-36 | defaulting with `""` reads an absent string as `""` and a present one as itself, the empty string included |
| `Js.OrZero` | store.ts:37 | defaulting with 0 reads an absent width as 0 and a present one as itself |
| `Store.Initialized` | store.ts:32-38 | with the setting off or no snapshot the state is unchanged; otherwise each field is copied from the snapshot, and an absent field becomes `""`, `""` or 0 |
| `Store.InitializeRoundTrip` | store.ts:32-46 | with persistence on, a full snapshot is exactly the state `getState` then returns |
| `Store.Opened` | store.ts:51-58 | a truthy guild id sets both ids from the request; otherwise `guildId` becomes `""` and `channelId` keeps its old value; width is untouched |
| `Store.Resolved` | store.ts:60-61 | completing a lookup sets `channelId` to the looked-up id unconditionally, with no staleness check, and keeps guild and width |
| `Store.Closed` | store.ts:64-68 | close clears both ids and keeps the width |
| `Store.CloseIdempotent` | store.ts:64-68 | close yields `("", "", width)`, and closing twice equals closing once |
| `Store.RunKeepsWidth` | store.ts:70-73 | no sequence of open, resolve and close events changes `width`, because only `initialize` writes it |
| `Store.StaleResolutionOverwrites` | store.ts:51-61 | a DM open overtaken by a guild open and then resolved leaves the later guild with the DM channel |
| `Store.ResolutionAfterCloseReopens` | store.ts:51-68 | a DM open, then a close, then the late lookup re-opens the closed sidebar on the DM channel with no guild |
| `Store.WidthUnchangedWithoutInitialize` | store.ts:26-28 | a valid store object whose history holds no `initialize` still has width 0, since no handler writes it |
| `Store.SidebarStore.constructor` | store.ts:25-28 | a new store is `("", "", 0)` with no notifications and no pending lookup |
| `Store.SidebarStore.Initialize` | store.ts:32-38 | the fields become `Initialized` of the old fields; no notification is emitted |
| `Store.SidebarStore.GetState` | store.ts:40-46 | returns the three current fields and changes nothing |
| `Store.SidebarStore.BeginOpen` | store.ts:51-58 | the fields become `Opened` of the old ones; the guild path emits once; the DM path emits nothing and leaves one more lookup pending |
| `Store.SidebarStore.CompleteDmResolution` | store.ts:60-61 | only with a lookup pending: `channelId` becomes the looked-up id, one notification is emitted and one fewer lookup is pending |
| `Store.SidebarStore.Close` | store.ts:64-68 | the fields become `Closed` of the old ones, and one notification is always emitted |
| `Store.RaceScenario` | store.ts:51-61 | driving the store object through a DM open, a guild open `G2` and the late lookup ends in `("G2", dm, 0)` after two notifications |
| `Sidebar.MakeContextMenu` | index.tsx:92-107 | the item's element id is `vc-sidebar-chat-` followed by the window name, it is labelled "Open Sidebar Chat", and it dispatches an open with the given guild id and id |
| `Sidebar.UserContextPatchAsWritten` | index.tsx:109-116 | as written, a call without a user throws |
| `Sidebar.UserMenuRequest` | index.tsx:109-116 | an item exists exactly for a present user other than the current user; its payload is `{guildId: null, id: user.id}` |
| `Sidebar.UserPatchAsWrittenVersusCorrected` | index.tsx:109-116 | for a present user, the patch as written and the corrected rule agree; without a user, the first throws and the second adds nothing |
| `Sidebar.UserContextPatch` | index.tsx:109-116 | throws exactly when there is no user, leaving `children` unchanged; otherwise `children` gains exactly the item `UserMenuRequest` allows, appended in place |
| `Sidebar.ChannelContextPatchAsWritten` | index.tsx:118-126 | as written, a call without a channel throws |
| `Sidebar.ChannelMenuRequest` | index.tsx:118-126 | an item exists exactly for a present channel that is not a category (type 4) and may be viewed; its payload is `{guildId: channel.guild_id, id: channel.id}` |
| `Sidebar.ChannelPatchAsWrittenVersusCorrected` | index.tsx:118-126 | for a present channel, the patch as written and the corrected rule agree; without one, the first throws and the second adds nothing |
| `Sidebar.ChannelContextPatch` | index.tsx:118-126 | throws exactly when there is no channel, leaving `children` unchanged; otherwise `children` gains exactly the item `ChannelMenuRequest` allows, appended in place |
| `Sidebar.RenderSidebar` | index.tsx:159-198 | renders exactly when the stored channel resolves and neither the current channel nor the current guild has a docked sidebar; it then shows that channel and the stored guild's lookup |
| `Sidebar.NoSessionNeverRenders` | index.tsx:159-198 | with `channelId` empty, nothing renders, whatever the docked-sidebar signals are |
| `Sidebar.ClosedSidebarIsHidden` | index.tsx:159-198 | after the close action the sidebar is hidden |
| `Sidebar.GuildOpenRenders` | index.tsx:159-198 | after a guild open of a known channel, with no docked sidebar, the sidebar shows that channel in that guild |
| `Sidebar.MessagesToFetch` | index.tsx:181-187 | messages are fetched, 50 of them, exactly for a channel with a non-empty id that has no last message |
| `Sidebar.HeaderName` | index.tsx:218-226 | a non-private or named channel shows `channel.name`; otherwise the name is truthy exactly when one of nickname, global name or username is |
| `Sidebar.HeaderNameIsFirstTruthy` | index.tsx:221-226 | in the fallback, a truthy name is the first truthy of nickname, global name and username |
| `Sidebar.PopoutKeyInjective` | index.tsx:239 | two channels share a popout key `DISCORD_VC_SC-<id>` exactly when their ids are equal |
| `Sidebar.OpenPopout` | index.tsx:236-246 | the popout opens for the header's channel and name with default size 854 by 480 |
| `Sidebar.RenderPopout` | index.tsx:278-292 | the window title is never empty: it is the name when truthy, else "Vencord"; the window shows the channel's id |
| `Sidebar.PopoutWindowMatchesOpen` | index.tsx:239-285 | the separately written keys of the popout call and of the window it renders agree, and the key identifies the channel |
| `Sidebar.SwitchChannels` | index.tsx:248-256 | "Switch channels" dispatches an open with the sidebar channel's own `guild_id` and `id` |
| `Sidebar.SwitchKeepsGuildSession` | index.tsx:248-256 | for a guild channel the sidebar already shows, switching leaves the session unchanged |
| `Sidebar.SwitchOnPrivateChannelSuspends` | index.tsx:248-256 | for a private channel, switching takes the DM path and only clears the guild until a lookup completes |

## Findings

| source | as written | input that shows it | evidently intended | confidence | as-written member | corrected member |
|---|---|---|---|---|---|---|
| index.tsx:109-116 | `checks` is an array literal, so `args.user.id` is read before `checks.some` can see that `args.user` is missing | `args.user` undefined: reading `.id` throws a TypeError | no menu item, `children` unchanged | medium; not executed | `Sidebar.UserContextPatchAsWritten`, `Sidebar.UserContextPatch` (with `Sidebar.UserPatchAsWrittenVersusCorrected`) | `Sidebar.UserMenuRequest` |
| index.tsx:118-126 | `args.channel.type` is read while `checks` is built, so the `args.channel` check can never be the one that fails | `args.channel` undefined: reading `.type` throws a TypeError | no menu item, `children` unchanged | medium; not executed | `Sidebar.ChannelContextPatchAsWritten`, `Sidebar.ChannelContextPatch` (with `Sidebar.ChannelPatchAsWrittenVersusCorrected`) | `Sidebar.ChannelMenuRequest` |

## Left out

- React hooks, JSX, SVG icons, `ErrorBoundary` and the `HeaderBar`, `Resize`, `Chat`, `ChannelHeader`, `PopoutWindow` and `FullChannelView` components are left out, because they are presentation.
- The `useEffect` dependency on `channel?.id` is left out. It makes the fetch run once per distinct channel; that is hook scheduling. Only the condition and the payload are modelled.
- The window-resize listener and `maxWidth = ~~(width * 0.31)` (index.tsx:189-196, 204) are left out, because they are floating-point layout.
- Webpack module lookups (`findComponentByCodeLazy`, `mapMangledModuleLazy`, `findStoreLazy`, `extractAndLoadChunksLazy`, `requireChannelContextMenu`) are left out, because they are foreign calls with no visible behaviour.
- `PrivateChannelsStore.getOrEnsurePrivateChannel` is not modelled. Its result is the argument of `CompleteDmResolution`. A lookup that fails or never returns is a `BeginOpen` with no completion.
- The Flux dispatcher, subscriber fan-out, `proxyLazy` construction and `PersistedStore` serialisation are left out. Dispatch is a method call, a notification is a count, and the snapshot is the argument of `initialize`.
- `PopoutActions.open`, `ChannelRouter.transitionToChannel` and `MessageActions.fetchMessages` are left out, because they are window, navigation and network side effects. The model gives only their arguments (`OpenPopout`, `SwitchChannels`, `MessagesToFetch`).
- The permission, guild, channel, user, relationship, message and channel-section store queries are not modelled. Their answers are parameters. `UserStore.getCurrentUser()` is assumed to return a user.
- The commented-out width handler (store.ts:70-73) is not modelled, because it is disabled in the source.
- Js.OrZero: the width is an integer, so `NaN` and fractional widths, which `|| 0` would also treat, are not modelled.
