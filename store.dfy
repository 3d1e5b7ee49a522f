/** The sidebar chat session store: which conversation the sidebar shows
    (`guildId`, `channelId`) and its advisory `width`, restored from a persisted
    snapshot at start-up and changed by the open and close actions. */
module Store {
  import opened Js

  /** Default value of the `persistSidebar` setting. */
  const PersistSidebarDefault: bool := true

  /** What `getState` returns: the three fields of the store. */
  datatype State = State(guildId: string, channelId: string, width: int)

  /** The state of a store that has just been created. */
  const Empty: State := State("", "", 0)

  /** A persisted snapshot as handed to `initialize`; every field may be missing. */
  datatype Snapshot = Snapshot(guildId: Option<string>, channelId: Option<string>, width: Option<int>)

  /** Payload of the open action: a guild channel when `guildId` is truthy,
      otherwise `id` names a person whose direct-message channel is looked up. */
  datatype OpenRequest = OpenRequest(guildId: Option<string>, id: string)

  /** Everything that writes the store. `Resolve` is the second half of a
      direct-message open: the lookup returned `channelId`. */
  datatype Event =
    | Initialize(persistSidebar: bool, previous: Option<Snapshot>)
    | Open(request: OpenRequest)
    | Resolve(channelId: string)
    | Close

  /** Whether an open request takes the guild-channel path (no suspension). */
  predicate IsGuildOpen(request: OpenRequest)
  {
    OrEmpty(request.guildId) != ""
  }

  /** `initialize`: seeds the state from the snapshot, but only when the
      setting is on and there is a snapshot. */
  function Initialized(s: State, persistSidebar: bool, previous: Option<Snapshot>): (r: State)
    ensures !persistSidebar || previous.None? ==> r == s
    ensures persistSidebar && previous.Some? ==>
      && (previous.value.guildId.Some? ==> r.guildId == previous.value.guildId.value)
      && (previous.value.guildId.None? ==> r.guildId == "")
      && (previous.value.channelId.Some? ==> r.channelId == previous.value.channelId.value)
      && (previous.value.channelId.None? ==> r.channelId == "")
      && (previous.value.width.Some? ==> r.width == previous.value.width.value)
      && (previous.value.width.None? ==> r.width == 0)
  {
    if !persistSidebar || previous.None? then s
    else
      var prev := previous.value;
      State(OrEmpty(prev.guildId), OrEmpty(prev.channelId), OrZero(prev.width))
  }

  /** The synchronous part of the open action: the guild id is written at once;
      the channel id only on the guild path. */
  function Opened(s: State, request: OpenRequest): (r: State)
    ensures r.width == s.width
    ensures IsGuildOpen(request) ==> r.guildId == request.guildId.value && r.channelId == request.id
    ensures !IsGuildOpen(request) ==> r.guildId == "" && r.channelId == s.channelId
  {
    var guildId := OrEmpty(request.guildId);
    if guildId != "" then State(guildId, request.id, s.width)
    else s.(guildId := guildId)
  }

  /** The continuation of a direct-message open once the lookup has returned. */
  function Resolved(s: State, channelId: string): (r: State)
    ensures r.guildId == s.guildId && r.width == s.width
    ensures r.channelId == channelId
  {
    s.(channelId := channelId)
  }

  /** The close action. */
  function Closed(s: State): (r: State)
    ensures r.guildId == "" && r.channelId == "" && r.width == s.width
  {
    s.(guildId := "", channelId := "")
  }

  function Step(s: State, e: Event): State
  {
    match e
    case Initialize(persistSidebar, previous) => Initialized(s, persistSidebar, previous)
    case Open(request) => Opened(s, request)
    case Resolve(channelId) => Resolved(s, channelId)
    case Close => Closed(s)
  }

  /** Number of change notifications an event emits. */
  function Emits(e: Event): nat
  {
    match e
    case Initialize(_, _) => 0
    case Open(request) => if IsGuildOpen(request) then 1 else 0
    case Resolve(_) => 1
    case Close => 1
  }

  /** Change in the number of direct-message lookups still awaited. */
  function PendingDelta(e: Event): int
  {
    match e
    case Open(request) => if IsGuildOpen(request) then 0 else 1
    case Resolve(_) => -1
    case _ => 0
  }

  /** The state reached from `s` by the events `evs`, in order. */
  function Run(s: State, evs: seq<Event>): State
    decreases |evs|
  {
    if evs == [] then s else Step(Run(s, evs[..|evs| - 1]), evs[|evs| - 1])
  }

  function EmitCount(evs: seq<Event>): nat
    decreases |evs|
  {
    if evs == [] then 0 else EmitCount(evs[..|evs| - 1]) + Emits(evs[|evs| - 1])
  }

  function PendingCount(evs: seq<Event>): int
    decreases |evs|
  {
    if evs == [] then 0 else PendingCount(evs[..|evs| - 1]) + PendingDelta(evs[|evs| - 1])
  }

  /** No handler writes `width`: only `initialize` does. */
  lemma {:induction false} RunKeepsWidth(s: State, evs: seq<Event>)
    requires forall i :: 0 <= i < |evs| ==> !evs[i].Initialize?
    ensures Run(s, evs).width == s.width
    decreases |evs|
  {
    if evs != [] {
      var front := evs[..|evs| - 1];
      assert forall i :: 0 <= i < |front| ==> front[i] == evs[i];
      RunKeepsWidth(s, front);
    }
  }

  /** Closing clears both ids, keeps the width, and a second close changes nothing. */
  lemma CloseIdempotent(s: State)
    ensures Closed(s) == State("", "", s.width)
    ensures Closed(Closed(s)) == Closed(s)
  {
  }

  /** The snapshot round-trips: with persistence on, a full snapshot is what `getState` sees. */
  lemma InitializeRoundTrip(s: State, snapshot: State)
    ensures Initialized(s, true, Some(Snapshot(Some(snapshot.guildId), Some(snapshot.channelId), Some(snapshot.width)))) == snapshot
  {
  }

  /** The open action has no request token: a direct-message lookup that returns
      after a later guild open still overwrites the channel, leaving the guild of
      the later open paired with the direct-message channel. */
  lemma StaleResolutionOverwrites(s: State, person: string, guildId: string, channelId: string, dmChannelId: string)
    requires guildId != ""
    ensures Run(s, [Open(OpenRequest(None, person)), Open(OpenRequest(Some(guildId), channelId)), Resolve(dmChannelId)])
            == State(guildId, dmChannelId, s.width)
  {
    var evs := [Open(OpenRequest(None, person)), Open(OpenRequest(Some(guildId), channelId)), Resolve(dmChannelId)];
    assert evs[..2][..1] == [evs[0]];
    assert evs[..2][..1][..0] == [];
    assert Run(s, evs[..1]) == Opened(s, OpenRequest(None, person));
    assert Run(s, evs[..2]) == State(guildId, channelId, s.width);
  }

  /** A lookup that returns after the close action re-opens the closed sidebar
      on the direct-message channel, with no guild. */
  lemma ResolutionAfterCloseReopens(s: State, person: string, dmChannelId: string)
    ensures Run(s, [Open(OpenRequest(None, person)), Close, Resolve(dmChannelId)])
            == State("", dmChannelId, s.width)
  {
    var evs := [Open(OpenRequest(None, person)), Close, Resolve(dmChannelId)];
    assert evs[..2][..1] == [evs[0]];
    assert evs[..2][..1][..0] == [];
    assert Run(s, evs[..1]) == Opened(s, OpenRequest(None, person));
    assert Run(s, evs[..2]) == State("", "", s.width);
  }

  /** The store. Its fields are the closure variables of the source; `emits`
      counts change notifications, `pending` the direct-message lookups not yet
      returned, and `trace` every write so far. */
  class SidebarStore {
    var guildId: string
    var channelId: string
    var width: int
    var emits: nat
    ghost var pending: nat
    ghost var trace: seq<Event>

    function Current(): State
      reads this
    {
      State(guildId, channelId, width)
    }

    ghost predicate Valid()
      reads this
    {
      && Current() == Run(Empty, trace)
      && emits == EmitCount(trace)
      && pending == PendingCount(trace)
    }

    constructor ()
      ensures Valid()
      ensures Current() == Empty && emits == 0 && pending == 0 && trace == []
    {
      guildId, channelId, width := "", "", 0;
      emits := 0;
      pending := 0;
      trace := [];
    }

    /** Appends `e` to the trace, given that the fields already reflect it. */
    ghost method Record(e: Event)
      requires Current() == Step(Run(Empty, trace), e)
      requires emits == EmitCount(trace) + Emits(e)
      requires pending == PendingCount(trace) + PendingDelta(e)
      modifies this`trace
      ensures Valid() && trace == old(trace) + [e]
    {
      var t := trace + [e];
      assert t[..|t| - 1] == trace;
      trace := t;
    }

    method Initialize(persistSidebar: bool, previous: Option<Snapshot>)
      requires Valid()
      modifies this
      ensures Valid() && trace == old(trace) + [Event.Initialize(persistSidebar, previous)]
      ensures Current() == Initialized(old(Current()), persistSidebar, previous)
      ensures emits == old(emits) && pending == old(pending)
    {
      if !persistSidebar || previous.None? {
        Record(Event.Initialize(persistSidebar, previous));
        return;
      }
      var prev := previous.value;
      guildId := OrEmpty(prev.guildId);
      channelId := OrEmpty(prev.channelId);
      width := OrZero(prev.width);
      Record(Event.Initialize(persistSidebar, previous));
    }

    /** `getState`: reads the three fields and changes nothing. */
    method GetState() returns (s: State)
      ensures s.guildId == guildId && s.channelId == channelId && s.width == width
    {
      s := State(guildId, channelId, width);
    }

    /** The open action up to its suspension point. On the guild path it
        completes here and emits once; on the direct-message path it only
        clears the guild id and leaves a lookup pending. */
    method BeginOpen(request: OpenRequest)
      requires Valid()
      modifies this
      ensures Valid() && trace == old(trace) + [Open(request)]
      ensures Current() == Opened(old(Current()), request)
      ensures IsGuildOpen(request) ==> emits == old(emits) + 1 && pending == old(pending)
      ensures !IsGuildOpen(request) ==> emits == old(emits) && pending == old(pending) + 1
    {
      guildId := OrEmpty(request.guildId);
      if guildId != "" {
        channelId := request.id;
        emits := emits + 1;
        Record(Open(request));
        return;
      }
      pending := pending + 1;
      Record(Open(request));
    }

    /** The open action after its lookup returned `resolvedChannelId`: the
        channel is written with no check that this open is still the latest. */
    method CompleteDmResolution(resolvedChannelId: string)
      requires Valid() && pending > 0
      modifies this
      ensures Valid() && trace == old(trace) + [Resolve(resolvedChannelId)]
      ensures Current() == Resolved(old(Current()), resolvedChannelId)
      ensures emits == old(emits) + 1 && pending == old(pending) - 1
    {
      channelId := resolvedChannelId;
      emits := emits + 1;
      pending := pending - 1;
      Record(Resolve(resolvedChannelId));
    }

    /** The close action: always clears both ids and always emits. */
    method Close()
      requires Valid()
      modifies this
      ensures Valid() && trace == old(trace) + [Event.Close]
      ensures Current() == Closed(old(Current()))
      ensures emits == old(emits) + 1 && pending == old(pending)
    {
      guildId := "";
      channelId := "";
      emits := emits + 1;
      Record(Event.Close);
    }
  }

  /** A store that has never been initialized keeps the width of a new store:
      no handler writes it. */
  lemma WidthUnchangedWithoutInitialize(store: SidebarStore)
    requires store.Valid()
    requires forall i :: 0 <= i < |store.trace| ==> !store.trace[i].Initialize?
    ensures store.width == 0
  {
    RunKeepsWidth(Empty, store.trace);
  }

  /** A direct-message open overtaken by a guild open, driven through the store
      object: the late lookup result lands in the guild session. */
  method RaceScenario(person: string, dmChannelId: string) returns (s: State, emitted: nat)
    ensures s == State("G2", dmChannelId, 0)
    ensures emitted == 2
  {
    var store := new SidebarStore();
    store.BeginOpen(OpenRequest(None, person));
    store.BeginOpen(OpenRequest(Some("G2"), "C2"));
    store.CompleteDmResolution(dmChannelId);
    s := store.GetState();
    emitted := store.emits;
  }
}
