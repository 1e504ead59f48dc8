/** Control: the controller that owns the two registries and the list of
    connected clients, and decides who is sent which message, in what order,
    and when the saver is asked to save. The client protocol, the `Universe`
    driver and the saver are foreign; the controller's calls into them are
    recorded, in order, as events. */
module Control {
  import opened Levels
  import opened Data

  /** A connected client's protocol object, by identity. */
  type ClientId = nat

  /** The messages handed to a client's `send_message`. `origin` is the
      second argument of `DimmerMessage`, `None` where the controller leaves it
      at its default. */
  datatype Message =
    | DimmerMessage(dimmers: map<ChannelId, int>, origin: Option<string>)
    | RegistryMessage(name: string, registry: Registry)

  /** A call the controller makes into foreign code. */
  datatype Event =
    | Send(to: ClientId, msg: Message)  // `to.send_message(msg)`
    | SetDimmers(dimmers: map<ChannelId, int>)  // `universe.set_dimmers(dimmers)`
    | Save  // `saver.save()`

  /** The `obj` argument of `do_update`: a raw dimmer map for the tag
      "dimmers", an entity to resolve for any other tag. */
  datatype Payload = RawDimmers(dimmers: map<ChannelId, int>) | Entity(entity: DimmerGroup)
  {
    function Footprint(): set<DimmerGroup>
    {
      if Entity? then {entity} else {}
    }
  }

  /** One `send_message(msg)` to every client, in list order. */
  function Broadcast(clients: seq<ClientId>, msg: Message): seq<Event>
  {
    if clients == [] then []
    else Broadcast(clients[..|clients| - 1], msg) + [Send(clients[|clients| - 1], msg)]
  }

  /** The messages a client is sent by a sequence of calls, in order. */
  function Received(events: seq<Event>, c: ClientId): seq<Message>
  {
    if events == [] then []
    else
      var last := events[|events| - 1];
      Received(events[..|events| - 1], c) + (if last.Send? && last.to == c then [last.msg] else [])
  }

  lemma {:induction false} ReceivedAppend(a: seq<Event>, b: seq<Event>, c: ClientId)
    ensures Received(a + b, c) == Received(a, c) + Received(b, c)
    decreases |b|
  {
    if b == [] {
      assert a + b == a;
    } else {
      var n := |b| - 1;
      assert (a + b)[..|a + b| - 1] == a + b[..n];
      ReceivedAppend(a, b[..n], c);
    }
  }

  /** A broadcast sends `msg` to each client once per time it is in the list,
      and nothing to anyone else: with distinct clients, exactly one message
      to each registered client and none to any other. */
  lemma {:induction false} BroadcastDelivers(clients: seq<ClientId>, msg: Message, c: ClientId)
    ensures |Received(Broadcast(clients, msg), c)| == multiset(clients)[c]
    ensures forall m :: m in Received(Broadcast(clients, msg), c) ==> m == msg
    decreases |clients|
  {
    if clients != [] {
      var n := |clients| - 1;
      var front := clients[..n];
      BroadcastDelivers(front, msg, c);
      ReceivedAppend(Broadcast(front, msg), [Send(clients[n], msg)], c);
      ReceivedOne(Send(clients[n], msg), c);
      assert clients == front + [clients[n]];
      assert multiset(clients) == multiset(front) + multiset{clients[n]};
    }
  }

  /** The calls `do_update` makes once the new dimmer map is known: the universe
      is set, every client is sent the map, then the saver saves. */
  function UpdateEvents(clients: seq<ClientId>, dimmers: map<ChannelId, int>): seq<Event>
  {
    [SetDimmers(dimmers)] + Broadcast(clients, DimmerMessage(dimmers, None)) + [Save]
  }

  /** After an update the universe is set first, `save()` is called exactly once
      and last, and each client is sent, once per registration, the very map the
      universe was given. */
  lemma UpdateDelivers(clients: seq<ClientId>, dimmers: map<ChannelId, int>, c: ClientId)
    ensures UpdateEvents(clients, dimmers)[0] == SetDimmers(dimmers)
    ensures UpdateEvents(clients, dimmers)[|UpdateEvents(clients, dimmers)| - 1] == Save
    ensures forall i :: 0 <= i < |UpdateEvents(clients, dimmers)| - 1 ==> UpdateEvents(clients, dimmers)[i] != Save
    ensures |Received(UpdateEvents(clients, dimmers), c)| == multiset(clients)[c]
    ensures forall m :: m in Received(UpdateEvents(clients, dimmers), c) ==> m == DimmerMessage(dimmers, None)
  {
    var b := Broadcast(clients, DimmerMessage(dimmers, None));
    BroadcastOnlySends(clients, DimmerMessage(dimmers, None));
    BroadcastDelivers(clients, DimmerMessage(dimmers, None), c);
    ReceivedAppend([SetDimmers(dimmers)], b, c);
    ReceivedAppend([SetDimmers(dimmers)] + b, [Save], c);
    ReceivedOne(SetDimmers(dimmers), c);
    ReceivedOne(Save, c);
  }

  /** A broadcast makes no call but sends. */
  lemma {:induction false} BroadcastOnlySends(clients: seq<ClientId>, msg: Message)
    ensures |Broadcast(clients, msg)| == |clients|
    ensures forall i :: 0 <= i < |clients| ==> Broadcast(clients, msg)[i] == Send(clients[i], msg)
    decreases |clients|
  {
    if clients != [] {
      BroadcastOnlySends(clients[..|clients| - 1], msg);
    }
  }

  /** The welcome `register_client` sends: the universe snapshot keyed
      0..n-1, then the groups registry, then the cues registry. */
  function Welcome(p: ClientId, universe: seq<int>, groups: Registry, cues: Registry): seq<Event>
  {
    [Send(p, DimmerMessage(Indexed(universe), None)),
     Send(p, RegistryMessage("groups", groups)),
     Send(p, RegistryMessage("cues", cues))]
  }

  /** `dict(zip(range(len(s)), s))`. */
  function Indexed(s: seq<int>): (m: map<ChannelId, int>)
    ensures forall i: ChannelId :: i in m <==> i < |s|
    ensures forall i :: i in m ==> m[i] == s[i]
  {
    map i: ChannelId | i < |s| :: s[i]
  }

  /** The welcome goes to the new client only, as three messages in order. */
  lemma WelcomeOnlyToNewClient(p: ClientId, universe: seq<int>, groups: Registry, cues: Registry, c: ClientId)
    ensures Received(Welcome(p, universe, groups, cues), c) ==
              if c == p then [DimmerMessage(Indexed(universe), None),
                              RegistryMessage("groups", groups),
                              RegistryMessage("cues", cues)]
              else []
  {
    var w := Welcome(p, universe, groups, cues);
    assert w == [w[0]] + [w[1]] + [w[2]];
    ReceivedAppend([w[0]] + [w[1]], [w[2]], c);
    ReceivedAppend([w[0]], [w[1]], c);
    ReceivedOne(w[0], c);
    ReceivedOne(w[1], c);
    ReceivedOne(w[2], c);
  }

  lemma ReceivedOne(e: Event, c: ClientId)
    ensures Received([e], c) == if e.Send? && e.to == c then [e.msg] else []
  {
    assert [e][..0] == [];
  }

  /** Index of the first occurrence of `p`: what `list.remove` searches for. */
  function FirstIndex(s: seq<ClientId>, p: ClientId): (i: nat)
    requires p in s
    ensures i < |s| && s[i] == p && p !in s[..i]
  {
    if s[0] == p then 0
    else
      assert p in s[1..];
      var j := FirstIndex(s[1..], p);
      assert s[..j + 1] == [s[0]] + s[1..][..j];
      j + 1
  }

  /** `list.remove(p)`: the list without the first occurrence of `p`, the
      other clients keeping their order. */
  function RemoveFirst(s: seq<ClientId>, p: ClientId): (r: seq<ClientId>)
    requires p in s
    ensures r == s[..FirstIndex(s, p)] + s[FirstIndex(s, p) + 1..]
    ensures multiset(r) == multiset(s) - multiset{p}
  {
    var i := FirstIndex(s, p);
    assert s == s[..i] + [p] + s[i + 1..];
    s[..i] + s[i + 1..]
  }

  /** `PersistentData`: foreign. The controller reads whether it loaded a
      snapshot and which registries it holds, and calls `save()`. */
  class Saver {
    var loaded: bool
    var groups: Registry?
    var cues: Registry?

    constructor (loaded: bool, groups: Registry?, cues: Registry?)
      ensures this.loaded == loaded && this.groups == groups && this.cues == cues
    {
      this.loaded := loaded;
      this.groups := groups;
      this.cues := cues;
    }
  }

  class Controller {
    const saver: Saver
    var groups: Registry
    var cues: Registry
    /** `universe.dimmers`: the current output, one device level per slot. */
    var universeDimmers: seq<int>
    var clients: seq<ClientId>
    /** Every call into a client, the universe or the saver, in order. */
    var log: seq<Event>

    /** The registry part of `Controller.__init__`: without a loaded snapshot
        the saver is given fresh, empty registries of groups and of cues; in
        both cases the controller's registries are the saver's own objects. */
    constructor (saver: Saver, universeDimmers: seq<int>)
      requires saver.loaded ==> saver.groups != null && saver.cues != null
      modifies saver`groups, saver`cues
      ensures this.saver == saver && this.universeDimmers == universeDimmers
      ensures groups == saver.groups && cues == saver.cues
      ensures saver.loaded ==> groups == old(saver.groups) && cues == old(saver.cues)
      ensures !saver.loaded ==> fresh(groups) && groups.cls == GroupKind && groups.entries == map[]
      ensures !saver.loaded ==> fresh(cues) && cues.cls == CueKind && cues.entries == map[]
      ensures clients == [] && log == []
    {
      if !saver.loaded {
        saver.groups := new Registry(GroupKind);
        saver.cues := new Registry(CueKind);
      }
      this.saver := saver;
      this.universeDimmers := universeDimmers;
      groups := saver.groups;
      cues := saver.cues;
      clients := [];
      log := [];
    }

    /** `register_client(p)`: `p` is appended and sent the welcome; no other
        client is sent anything. */
    method RegisterClient(p: ClientId)
      modifies this`clients, this`log
      ensures clients == old(clients) + [p]
      ensures log == old(log) + Welcome(p, universeDimmers, groups, cues)
    {
      clients := clients + [p];
      log := log + [Send(p, DimmerMessage(Indexed(universeDimmers), None))];
      log := log + [Send(p, RegistryMessage("groups", groups))];
      log := log + [Send(p, RegistryMessage("cues", cues))];
    }

    /** `unregister_client(p)`: the first occurrence of `p` is removed; a client
        that is not registered raises `ValueError` and nothing changes. */
    method UnregisterClient(p: ClientId) returns (o: Outcome)
      modifies this`clients
      ensures p in old(clients) ==> o == Pass && clients == RemoveFirst(old(clients), p)
      ensures p !in old(clients) ==> o == Fail(ValueError) && clients == old(clients)
    {
      if p !in clients {
        return Fail(ValueError);
      }
      clients := RemoveFirst(clients, p);
      return Pass;
    }

    /** The `for i in self.clients: i.send_message(msg)` loop. */
    method SendToAll(msg: Message)
      modifies this`log
      ensures log == old(log) + Broadcast(clients, msg)
    {
      var k := 0;
      while k < |clients|
        invariant 0 <= k <= |clients|
        invariant log == old(log) + Broadcast(clients[..k], msg)
      {
        assert clients[..k + 1][..k] == clients[..k];
        log := log + [Send(clients[k], msg)];
        k := k + 1;
      }
      assert clients[..k] == clients;
    }

    /** `on_dmx(universe, changed, data, ignore_input)`: an empty change is
        ignored; otherwise every client, in order, is sent the change tagged
        "input". */
    method OnDmx(changed: map<ChannelId, int>)
      modifies this`log
      ensures |changed| == 0 ==> log == old(log)
      ensures |changed| != 0 ==> log == old(log) + Broadcast(clients, DimmerMessage(changed, Some("input")))
    {
      if |changed| != 0 {
        SendToAll(DimmerMessage(changed, Some("input")));
      }
    }

    /** `do_update(t, obj)`: the new map is `obj` itself for the tag "dimmers",
        else `obj.get_dimmers()` at its stored level (which stays as it was).
        The universe is set to it, every client is sent it, and the saver then
        saves. If resolution raises, nothing is set, sent or saved. */
    method DoUpdate(t: string, obj: Payload) returns (o: Outcome)
      requires t == "dimmers" <==> obj.RawDimmers?
      modifies this`log, this`universeDimmers, obj.Footprint()`level
      ensures obj.RawDimmers? ==> o == Pass && log == old(log) + UpdateEvents(clients, obj.dimmers)
      ensures obj.Entity? ==> obj.entity.level == old(obj.entity.level)
      ensures obj.Entity? && obj.entity.nested == map[] ==>
                o == Pass && log == old(log) + UpdateEvents(clients, Scaled(obj.entity.channels, obj.entity.level))
      ensures obj.Entity? && obj.entity.nested != map[] ==>
                o.Fail? && log == old(log) && universeDimmers == old(universeDimmers)
    {
      var dimmers: map<ChannelId, int>;
      if t == "dimmers" {
        dimmers := obj.dimmers;
      } else {
        var r := obj.entity.GetDimmers(None);
        if r.Err? {
          return Fail(r.error);
        }
        dimmers := r.value;
      }
      log := log + [SetDimmers(dimmers)];
      // What `set_dimmers` does to the universe's own list is the driver's business.
      universeDimmers := *;
      SendToAll(DimmerMessage(dimmers, None));
      log := log + [Save];
      o := Pass;
    }
  }
}
