/** Cross-instance fan-out (src/fanout.rs): every instance publishes its frames to
    one channel through a queue, and runs a subscriber that hands what others
    published to its own sockets. */
module Fanout {
  import opened Devices
  import opened Hub
  import opened Wrappers

  /** What a subscriber does with an envelope. */
  function Handled<F>(
    instance: nat, conns: Conns, outbox: Outbox<F>, origin: nat, user: nat, device: Option<string>, frame: F): Outbox<F>
  {
    if origin == instance then outbox
    else match device
      case None => Delivered(conns, outbox, user, frame)
      case Some(d) => SentToDevice(conns, outbox, user, d, frame)
  }

  datatype Envelope = Envelope(origin: nat, user: nat, frame: string, device: Option<string>)

  /** One instance's end of the bus. */
  class FanoutNode {
    const instance: nat
    const hub: SocialHub
    /** Off when no Redis address is configured. */
    const enabled: bool
    var queue: seq<Envelope>

    constructor (instance: nat, hub: SocialHub, enabled: bool)
      ensures this.instance == instance && this.hub == hub && this.enabled == enabled && queue == []
    {
      this.instance, this.hub, this.enabled := instance, hub, enabled;
      queue := [];
    }

    method Publish(user: nat, frame: string, device: Option<string>)
      modifies this
      ensures queue == if enabled then old(queue) + [Envelope(instance, user, frame, device)] else old(queue)
    {
      if enabled {
        queue := queue + [Envelope(instance, user, frame, device)];
      }
    }

    /** Local sockets now, peers through the queue. */
    method Push(user: nat, frame: string)
      requires hub.Valid()
      modifies this, hub`outbox
      ensures hub.Valid() && hub.outbox == Delivered(hub.conns, old(hub.outbox), user, frame)
      ensures ReachesAll(hub.conns, old(hub.outbox), hub.outbox, user, frame)
      ensures queue == if enabled then old(queue) + [Envelope(instance, user, frame, None)] else old(queue)
    {
      hub.DeliverLocal(user, frame);
      Publish(user, frame, None);
    }

    /** A command for one machine: the local socket if there is one, else the bus. */
    method SendOrRelay(user: nat, device: string, frame: string) returns (delivered: bool)
      requires hub.Valid()
      modifies this, hub`outbox
      ensures hub.Valid() && hub.outbox == SentToDevice(hub.conns, old(hub.outbox), user, device, frame)
      ensures ReachesDevice(hub.conns, old(hub.outbox), hub.outbox, user, device, frame)
      ensures var here := Connected(hub.conns, user, device);
              && delivered == (here || enabled)
              && queue == if !here && enabled then old(queue) + [Envelope(instance, user, frame, Some(device))]
                          else old(queue)
    {
      delivered := hub.SendToDevice(user, device, frame);
      if !delivered {
        Publish(user, frame, Some(device));
        delivered := enabled;
      }
    }

    /** The drain task takes the queue in order. */
    method DrainOne() returns (e: Envelope)
      requires queue != []
      modifies this
      ensures [e] + queue == old(queue)
    {
      e := queue[0];
      queue := queue[1..];
    }

    /** The subscriber loop's body: own frames are skipped, they were delivered. */
    method OnMessage(e: Envelope)
      requires hub.Valid()
      modifies hub`outbox
      ensures hub.Valid()
      ensures hub.outbox == Handled(instance, hub.conns, old(hub.outbox), e.origin, e.user, e.device, e.frame)
      ensures e.origin == instance ==> hub.outbox == old(hub.outbox)
      ensures e.origin != instance && e.device.None?
              ==> ReachesAll(hub.conns, old(hub.outbox), hub.outbox, e.user, e.frame)
      ensures e.origin != instance && e.device.Some?
              ==> ReachesDevice(hub.conns, old(hub.outbox), hub.outbox, e.user, e.device.value, e.frame)
    {
      if e.origin == instance {
        return;
      }
      match e.device
      case Some(device) =>
        var _ := hub.SendToDevice(e.user, device, e.frame);
      case None =>
        hub.DeliverLocal(e.user, e.frame);
    }
  }

  // ---------------------------------------------------------- remote install

  ghost predicate PublishedBy(peers: Option<seq<RegistryEntry>>, d: Device, now: nat, ttl: nat) {
    peers.Some?
    && exists i :: 0 <= i < |peers.value| && now <= peers.value[i].at + ttl && d in peers.value[i].devices
  }

  /** What the picker offers: this instance's devices and what fresh peers published;
      its own alone when the registry cannot be read (`peers` is None). Every row has
      such a source, and every such device a row. */
  method PickerRows(
    hub: SocialHub, user: nat, peers: Option<seq<RegistryEntry>>, readAt: nat, now: nat, ttl: nat,
    lower: string -> string)
    returns (rows: seq<Device>)
    requires hub.Valid()
    ensures UniqueIds(rows) && Sorted(rows, lower)
    ensures forall d :: d in rows ==> Connected(hub.conns, user, d.id) || PublishedBy(peers, d, now, ttl)
    ensures forall d :: PublishedBy(peers, d, now, ttl) ==> HasRow(rows, d.id)
    ensures peers.None? || now <= readAt + ttl
            ==> forall c :: c in SocketsOf(hub.conns, user) && c.device.Some? ==> HasRow(rows, c.device.value.id)
  {
    var local := hub.DevicesFor(user, lower);
    LocalHasSockets(hub.conns, user, local, lower);
    if peers.None? {
      rows := CollapseDevices(local, lower);
      CollapseIsIdempotent(DevicesOf(SocketsOf(hub.conns, user)), local, rows, lower);
      LocalIsShown(SocketsOf(hub.conns, user), local, rows);
      return;
    }
    rows := FanoutDevices(peers.value, local, readAt, now, ttl, lower);
    MergedHaveSources(peers, local, readAt, now, ttl, rows, lower);
    MergedAreShown(peers, local, readAt, now, ttl, rows, lower);
    if now <= readAt + ttl {
      LocalIsShown(SocketsOf(hub.conns, user), local, rows);
    }
  }

  lemma LocalHasSockets(conns: Conns, user: nat, local: seq<Device>, lower: string -> string)
    requires IsCollapsed(DevicesOf(SocketsOf(conns, user)), local, lower)
    ensures forall d :: d in local ==> Connected(conns, user, d.id)
    ensures forall c, d :: c in SocketsOf(conns, user) && c.device == Some(d) ==> exists e :: e in local && e.id == d.id
  {
    RouterAgreesWithPicker(SocketsOf(conns, user), local, lower);
    forall d | d in local ensures Connected(conns, user, d.id) {
      RoutedIsLatest(SocketsOf(conns, user), d.id);
    }
  }

  lemma MergedHaveSources(
    peers: Option<seq<RegistryEntry>>, local: seq<Device>, readAt: nat, now: nat, ttl: nat, rows: seq<Device>,
    lower: string -> string)
    requires peers.Some?
    requires IsCollapsed(FreshDevices(peers.value + [RegistryEntry(readAt, local)], now, ttl), rows, lower)
    ensures forall d :: d in rows ==> d in local || PublishedBy(peers, d, now, ttl)
  {
    var entries := peers.value + [RegistryEntry(readAt, local)];
    forall d | d in rows ensures d in local || PublishedBy(peers, d, now, ttl) {
      OnlyFreshDevicesShown(entries, now, ttl, rows, d, lower);
      var i :| 0 <= i < |entries| && now <= entries[i].at + ttl && d in entries[i].devices;
      assert i < |peers.value| ==> peers.value[i] == entries[i];
    }
  }

  lemma MergedAreShown(
    peers: Option<seq<RegistryEntry>>, local: seq<Device>, readAt: nat, now: nat, ttl: nat, rows: seq<Device>,
    lower: string -> string)
    requires peers.Some?
    requires IsCollapsed(FreshDevices(peers.value + [RegistryEntry(readAt, local)], now, ttl), rows, lower)
    ensures forall d :: PublishedBy(peers, d, now, ttl) ==> HasRow(rows, d.id)
    ensures now <= readAt + ttl ==> forall d :: d in local ==> HasRow(rows, d.id)
  {
    var entries := peers.value + [RegistryEntry(readAt, local)];
    forall d | PublishedBy(peers, d, now, ttl) ensures HasRow(rows, d.id) {
      var i :| 0 <= i < |peers.value| && now <= peers.value[i].at + ttl && d in peers.value[i].devices;
      assert entries[i] == peers.value[i];
      FreshDevicesAreShown(entries, now, ttl, rows, i, d, lower);
    }
    if now <= readAt + ttl {
      forall d | d in local ensures HasRow(rows, d.id) {
        FreshDevicesAreShown(entries, now, ttl, rows, |peers.value|, d, lower);
      }
    }
  }

  lemma LocalIsShown(v: seq<Conn>, local: seq<Device>, rows: seq<Device>)
    requires forall c, d :: c in v && c.device == Some(d) ==> exists e :: e in local && e.id == d.id
    requires (forall d :: d in local ==> HasRow(rows, d.id)) || rows == local
    ensures forall c :: c in v && c.device.Some? ==> HasRow(rows, c.device.value.id)
  {
    forall c | c in v && c.device.Some? ensures HasRow(rows, c.device.value.id) {
      var e :| e in local && e.id == c.device.value.id;
      if rows == local {
        var k :| 0 <= k < |local| && local[k] == e;
      }
    }
  }

  /** A remote install, with the rows its handler was given before. Sockets may have come
      and gone since: an accepted command goes to the socket the device has now, else to
      the bus, and is answered with failure only when there is neither. */
  method RemoteInstall(
    node: FanoutNode, user: nat, targetId: string, gameId: string, command: string, rows: seq<Device>)
    returns (r: Result<string, InstallReject>, delivered: bool)
    requires node.hub.Valid()
    modifies node, node.hub`outbox
    ensures node.hub.Valid()
    ensures r.Ok? ==> SanitizeId(targetId) == Some(r.value)
                      && exists d :: d in rows && d.id == r.value && Says(d.kind, DESKTOP_WORDS)
    ensures r.Err? ==> !delivered && node.hub.outbox == old(node.hub.outbox) && node.queue == old(node.queue)
    ensures r.Ok? ==> var here := Connected(node.hub.conns, user, r.value);
                      && delivered == (here || node.enabled)
                      && ReachesDevice(node.hub.conns, old(node.hub.outbox), node.hub.outbox, user, r.value, command)
                      && node.queue == if here || !node.enabled then old(node.queue)
                                       else old(node.queue) + [Envelope(node.instance, user, command, Some(r.value))]
  {
    r := CheckInstallTarget(targetId, gameId, rows);
    delivered := false;
    if r.Ok? {
      delivered := node.SendOrRelay(user, r.value, command);
    }
  }

  /** With nothing in between, no accepted command is dropped: its device has a socket
      here, or a fresh peer published it and the bus takes it. */
  method RemoteInstallUndisturbed(
    node: FanoutNode, user: nat, targetId: string, gameId: string, command: string, peers: Option<seq<RegistryEntry>>,
    readAt: nat, now: nat, ttl: nat, lower: string -> string)
    returns (r: Result<string, InstallReject>, delivered: bool)
    requires node.hub.Valid() && (peers.Some? ==> node.enabled)
    modifies node, node.hub`outbox
    ensures node.hub.Valid() && delivered == r.Ok?
    ensures r.Ok? ==> Connected(node.hub.conns, user, r.value)
                      || exists d: Device :: d.id == r.value && PublishedBy(peers, d, now, ttl)
  {
    var rows := PickerRows(node.hub, user, peers, readAt, now, ttl, lower);
    r, delivered := RemoteInstall(node, user, targetId, gameId, command, rows);
  }

  // ------------------------------------------------------------- the cluster

  /** A published frame. `tag` tells frames apart and `pos` is the place in its
      origin's queue; neither travels, they only name the frame here. */
  datatype Letter = Letter(user: nat, device: Option<string>, tag: nat, pos: nat)

  /** With the instance it came from. */
  type Mail = (nat, Letter)

  /** `owed` are frames delivered locally and not yet queued; `sent` is everything
      ever queued. */
  datatype Node = Node(
    conns: Conns, nextId: nat, outbox: Outbox<Mail>, owed: set<nat>, queue: seq<Letter>, sent: seq<Letter>)

  datatype Request = Request(origin: nat, user: nat, device: Option<string>)

  /** `streams` holds what a connected subscriber has yet to read. */
  datatype World = World(nodes: map<nat, Node>, streams: map<nat, seq<Mail>>, pushed: seq<Request>)

  function Fresh(ids: set<nat>): World {
    World(map i | i in ids :: Node(map[], 1, map[], {}, [], []), map[], [])
  }

  datatype Event =
    | Open(i: nat, user: nat, device: Option<Device>)
    | Close(i: nat, user: nat, conn: nat)
    | Push(i: nat, user: nat)
    | PushDevice(i: nat, user: nat, target: string)
    | Enqueue(i: nat, tag: nat)
    | Drain(i: nat, ok: bool)
    | Receive(i: nat)
    | SubscriberUp(i: nat)
    | SubscriberDown(i: nat)

  function Opened(n: Node, user: nat, device: Option<Device>): Node {
    n.(conns := Registered(n.conns, user, Conn(n.nextId, device)), nextId := n.nextId + 1,
       outbox := n.outbox[n.nextId := Channel(user, [])])
  }

  function Pushed(n: Node, i: nat, user: nat, tag: nat): Node {
    n.(outbox := Delivered(n.conns, n.outbox, user, (i, Letter(user, None, tag, 0))), owed := n.owed + {tag})
  }

  function PushedDevice(n: Node, i: nat, user: nat, device: string, tag: nat): Node {
    if Routed(SocketsOf(n.conns, user), device).Some?
    then n.(outbox := SentToDevice(n.conns, n.outbox, user, device, (i, Letter(user, Some(device), tag, 0))))
    else n.(owed := n.owed + {tag})
  }

  function Enqueued(n: Node, r: Request, tag: nat): Node {
    var l := Letter(r.user, r.device, tag, |n.sent|);
    n.(owed := n.owed - {tag}, queue := n.queue + [l], sent := n.sent + [l])
  }

  function Received(n: Node, i: nat, m: Mail): Node {
    n.(outbox := Handled(i, n.conns, n.outbox, m.0, m.1.user, m.1.device, m))
  }

  function Step(w: World, e: Event): World {
    if e.i !in w.nodes then w
    else
      var n := w.nodes[e.i];
      match e
      case Open(i, user, device) => w.(nodes := w.nodes[i := Opened(n, user, device)])
      case Close(i, user, conn) => w.(nodes := w.nodes[i := n.(conns := Unregistered(n.conns, user, conn))])
      case Push(i, user) =>
        w.(nodes := w.nodes[i := Pushed(n, i, user, |w.pushed|)], pushed := w.pushed + [Request(i, user, None)])
      case PushDevice(i, user, target) =>
        w.(nodes := w.nodes[i := PushedDevice(n, i, user, target, |w.pushed|)],
           pushed := w.pushed + [Request(i, user, Some(target))])
      case Enqueue(i, tag) =>
        if tag in n.owed && tag < |w.pushed| then w.(nodes := w.nodes[i := Enqueued(n, w.pushed[tag], tag)]) else w
      case Drain(i, ok) =>
        if n.queue == [] then w
        else
          World(w.nodes[i := n.(queue := n.queue[1..])],
                if ok then (map j | j in w.streams :: w.streams[j] + [(i, n.queue[0])]) else w.streams, w.pushed)
      case Receive(i) =>
        if i !in w.streams || w.streams[i] == [] then w
        else World(w.nodes[i := Received(n, i, w.streams[i][0])], w.streams[i := w.streams[i][1..]], w.pushed)
      case SubscriberUp(i) => if i in w.streams then w else w.(streams := w.streams[i := []])
      case SubscriberDown(i) => w.(streams := w.streams - {i})
  }

  function Run(ids: set<nat>, events: seq<Event>): World {
    if events == [] then Fresh(ids) else Step(Run(ids, events[..|events| - 1]), events[|events| - 1])
  }

  function StreamOf(w: World, j: nat): seq<Mail> {
    if j in w.streams then w.streams[j] else []
  }
}
