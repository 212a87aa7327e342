/** The connection hub of one server instance (`SocialHub` in src/social_api.rs):
    live sockets per account, the voice gate and the ring table, each behind its
    own lock. Every method below is one hold of one lock. */
module Hub {
  import opened Blocks
  import opened Devices
  import opened Rings
  import opened Wrappers

  datatype Conn = Conn(id: nat, device: Option<Device>)

  type Conns = map<nat, seq<Conn>>

  /** A socket's outgoing queue and the account that opened the socket. */
  datatype Channel<F> = Channel(user: nat, frames: seq<F>)

  /** The queues by connection id, kept after a socket is gone. */
  type Outbox<F> = map<nat, Channel<F>>

  function Queued<F>(ch: Channel<F>, frame: F): Channel<F> {
    ch.(frames := ch.frames + [frame])
  }

  // ------------------------------------------------------------- connections

  function SocketsOf(conns: Conns, user: nat): seq<Conn> {
    if user in conns then conns[user] else []
  }

  function Registered(conns: Conns, user: nat, c: Conn): Conns {
    conns[user := SocketsOf(conns, user) + [c]]
  }

  function WithoutConn(v: seq<Conn>, id: nat): seq<Conn> {
    if v == [] then []
    else WithoutConn(v[..|v| - 1], id) + if v[|v| - 1].id == id then [] else [v[|v| - 1]]
  }

  function Unregistered(conns: Conns, user: nat, id: nat): Conns {
    if user !in conns then conns
    else if WithoutConn(conns[user], id) == [] then conns - {user}
    else conns[user := WithoutConn(conns[user], id)]
  }

  /** Was this the account's last socket? */
  predicate LastGone(conns: Conns, user: nat, id: nat) {
    user in conns && WithoutConn(conns[user], id) == []
  }

  function DevicesOf(v: seq<Conn>): seq<Device> {
    if v == [] then []
    else
      var d := v[|v| - 1].device;
      DevicesOf(v[..|v| - 1]) + if d.Some? then [d.value] else []
  }

  /** The socket a command for one device goes to: the latest that has it. */
  function Routed(v: seq<Conn>, device: string): Option<Conn> {
    if v == [] then None
    else
      var c := v[|v| - 1];
      if c.device.Some? && c.device.value.id == device then Some(c) else Routed(v[..|v| - 1], device)
  }

  /** In the order they were given out, so none twice. */
  ghost predicate InOrder(v: seq<Conn>) {
    forall i, j :: 0 <= i < j < |v| ==> v[i].id < v[j].id
  }

  ghost predicate ListOk<F>(v: seq<Conn>, user: nat, outbox: Outbox<F>) {
    v != [] && InOrder(v) && forall c :: c in v ==> c.id in outbox && outbox[c.id].user == user
  }

  /** Connection ids are given out once and never shared between sockets. */
  ghost predicate ConnsOk<F>(conns: Conns, nextId: nat, outbox: Outbox<F>) {
    (forall u :: u in conns ==> ListOk(conns[u], u, outbox)) && forall id :: id in outbox ==> id < nextId
  }

  lemma {:induction false} WithoutConnKeeps(v: seq<Conn>, id: nat)
    requires InOrder(v)
    ensures InOrder(WithoutConn(v, id))
    ensures forall c :: c in WithoutConn(v, id) <==> c in v && c.id != id
  {
    if v != [] {
      var front := v[..|v| - 1];
      WithoutConnKeeps(front, id);
      assert v == front + [v[|v| - 1]];
    }
  }

  /** That socket goes, and nothing else; the account with its last. */
  ghost predicate Closes(conns: Conns, conns2: Conns, user: nat, id: nat, last: bool) {
    (last <==> user in conns && forall c :: c in conns[user] ==> c.id == id)
    && conns2.Keys == (if last then conns.Keys - {user} else conns.Keys)
    && (user in conns2 ==> forall c :: c in conns2[user] <==> c in conns[user] && c.id != id)
    && forall u :: u in conns2 && u != user ==> conns2[u] == conns[u]
  }

  lemma {:induction false} WithoutConnHas(v: seq<Conn>, id: nat)
    ensures forall c :: c in WithoutConn(v, id) <==> c in v && c.id != id
  {
    if v != [] {
      WithoutConnHas(v[..|v| - 1], id);
      assert v == v[..|v| - 1] + [v[|v| - 1]];
    }
  }

  lemma ClosesSocket(conns: Conns, user: nat, id: nat)
    ensures Closes(conns, Unregistered(conns, user, id), user, id, LastGone(conns, user, id))
  {
    if user in conns {
      WithoutConnHas(conns[user], id);
      if WithoutConn(conns[user], id) != [] {
        assert WithoutConn(conns[user], id)[0] in WithoutConn(conns[user], id);
      }
    }
  }

  predicate HasConn(v: seq<Conn>, id: nat) {
    exists i :: 0 <= i < |v| && v[i].id == id
  }

  /** One frame to every live socket of an account, and to no other socket. */
  function Delivered<F>(conns: Conns, outbox: Outbox<F>, user: nat, frame: F): Outbox<F> {
    map id | id in outbox :: if HasConn(SocketsOf(conns, user), id) then Queued(outbox[id], frame) else outbox[id]
  }

  function SentToDevice<F>(conns: Conns, outbox: Outbox<F>, user: nat, device: string, frame: F): Outbox<F> {
    match Routed(SocketsOf(conns, user), device)
    case None => outbox
    case Some(c) => if c.id in outbox then outbox[c.id := Queued(outbox[c.id], frame)] else outbox
  }

  // -------------------------------------------------- whose queue a frame joins

  /** One queue has the frame at its end; all else is as before. */
  ghost predicate GoesTo<F>(before: Outbox<F>, after: Outbox<F>, id: nat, frame: F) {
    id in before && id in after && after[id].frames == before[id].frames + [frame] && after[id].user == before[id].user
    && after.Keys == before.Keys && forall other :: other in before && other != id ==> after[other] == before[other]
  }

  predicate HasDevice(c: Conn, device: string) {
    c.device.Some? && c.device.value.id == device
  }

  /** Socket `i` of the account is the latest with that device. */
  predicate Latest(conns: Conns, user: nat, i: nat, device: string) {
    user in conns && i < |conns[user]| && HasDevice(conns[user][i], device)
    && forall j :: i < j < |conns[user]| ==> !HasDevice(conns[user][j], device)
  }

  predicate Connected(conns: Conns, user: nat, device: string) {
    user in conns && exists i :: 0 <= i < |conns[user]| && HasDevice(conns[user][i], device)
  }

  /** A frame for one device joins the queue of its latest socket, and no queue if it has none. */
  ghost predicate ReachesDevice<F>(
    conns: Conns, before: Outbox<F>, after: Outbox<F>, user: nat, device: string, frame: F)
  {
    (forall i: nat {:trigger Latest(conns, user, i, device)} ::
       Latest(conns, user, i, device) ==> GoesTo(before, after, conns[user][i].id, frame))
    && (!Connected(conns, user, device) ==> after == before)
  }

  /** A frame for an account joins the queue of each of its sockets, and no other. */
  ghost predicate ReachesAll<F>(conns: Conns, before: Outbox<F>, after: Outbox<F>, user: nat, frame: F) {
    after.Keys == before.Keys
    && (user in conns ==> forall i :: 0 <= i < |conns[user]| ==>
          && conns[user][i].id in before
          && after[conns[user][i].id].frames == before[conns[user][i].id].frames + [frame]
          && after[conns[user][i].id].user == before[conns[user][i].id].user)
    && forall id :: id in before && !(user in conns && exists i :: 0 <= i < |conns[user]| && conns[user][i].id == id)
         ==> after[id] == before[id]
  }

  lemma {:induction false} RoutedIsLatest(v: seq<Conn>, device: string)
    ensures Routed(v, device).Some? <==> exists i :: 0 <= i < |v| && HasDevice(v[i], device)
    ensures forall i {:trigger v[i]} | 0 <= i < |v| && HasDevice(v[i], device) ::
              (forall j :: i < j < |v| ==> !HasDevice(v[j], device)) ==> Routed(v, device) == Some(v[i])
  {
    if v != [] && !HasDevice(v[|v| - 1], device) {
      var front := v[..|v| - 1];
      RoutedIsLatest(front, device);
      if i :| 0 <= i < |v| && HasDevice(v[i], device) {
        assert HasDevice(front[i], device);
      }
      if i :| 0 <= i < |front| && HasDevice(front[i], device) {
        assert HasDevice(v[i], device);
      }
      forall i | 0 <= i < |v| && HasDevice(v[i], device) && (forall j :: i < j < |v| ==> !HasDevice(v[j], device))
        ensures Routed(v, device) == Some(v[i])
      {
        assert HasDevice(front[i], device) && forall j :: i < j < |front| ==> !HasDevice(front[j], device);
      }
    }
  }

  /** So a command goes to the latest socket of its device. */
  lemma SentReachesDevice<F>(
    conns: Conns, nextId: nat, outbox: Outbox<F>, user: nat, device: string, frame: F)
    requires ConnsOk(conns, nextId, outbox)
    ensures ReachesDevice(conns, outbox, SentToDevice(conns, outbox, user, device, frame), user, device, frame)
    ensures Routed(SocketsOf(conns, user), device).Some? <==> Connected(conns, user, device)
  {
    var v := SocketsOf(conns, user);
    RoutedIsLatest(v, device);
    forall i: nat | Latest(conns, user, i, device)
      ensures GoesTo(outbox, SentToDevice(conns, outbox, user, device, frame), conns[user][i].id, frame)
    {
      assert HasDevice(v[i], device) && ListOk(conns[user], user, outbox) && v[i] in conns[user];
    }
  }

  lemma DeliveredReachesAll<F>(conns: Conns, nextId: nat, outbox: Outbox<F>, user: nat, frame: F)
    requires ConnsOk(conns, nextId, outbox)
    ensures ReachesAll(conns, outbox, Delivered(conns, outbox, user, frame), user, frame)
  {
    if user in conns {
      forall i | 0 <= i < |conns[user]| ensures conns[user][i].id in outbox && HasConn(conns[user], conns[user][i].id) {
        assert ListOk(conns[user], user, outbox) && conns[user][i] in conns[user];
      }
    }
  }

  // ---------------------------------------------------------------- the hub

  class SocialHub {
    var conns: Conns
    var nextId: nat
    var outbox: Outbox<string>
    var voicePairs: set<(nat, nat)>
    const rings: Rings

    ghost predicate Valid()
      reads this
    {
      ConnsOk(conns, nextId, outbox)
    }

    constructor ()
      ensures Valid() && fresh(rings)
      ensures conns == map[] && voicePairs == {} && rings.live == map[]
    {
      conns, nextId, outbox, voicePairs := map[], 1, map[], {};
      rings := new Rings();
    }

    method Register(user: nat, device: Option<Device>) returns (id: nat)
      requires Valid()
      modifies this`conns, this`nextId, this`outbox
      ensures Valid() && id == old(nextId) && id !in old(outbox)
      ensures conns == Registered(old(conns), user, Conn(id, device)) && outbox == old(outbox)[id := Channel(user, [])]
      ensures user in conns && conns[user] != [] && conns[user][|conns[user]| - 1] == Conn(id, device)
      ensures conns[user][..|conns[user]| - 1] == (if user in old(conns) then old(conns)[user] else [])
      ensures forall u :: u != user ==> (u in conns <==> u in old(conns)) && (u in conns ==> conns[u] == old(conns)[u])
    {
      id := nextId;
      nextId := nextId + 1;
      outbox := outbox[id := Channel(user, [])];
      conns := conns[user := (if user in conns then conns[user] else []) + [Conn(id, device)]];
    }

    method Unregister(user: nat, id: nat) returns (last: bool)
      requires Valid()
      modifies this`conns
      ensures Valid()
      ensures conns == Unregistered(old(conns), user, id) && last == LastGone(old(conns), user, id)
      ensures Closes(old(conns), conns, user, id, last)
    {
      if user !in conns {
        ClosesSocket(conns, user, id);
        return false;
      }
      var v := conns[user];
      var kept: seq<Conn> := [];
      for i := 0 to |v|
        invariant kept == WithoutConn(v[..i], id) && conns == old(conns)
      {
        assert v[..i + 1][..i] == v[..i];
        if v[i].id != id {
          kept := kept + [v[i]];
        }
      }
      assert v[..|v|] == v;
      WithoutConnKeeps(v, id);
      ClosesSocket(conns, user, id);
      last := kept == [];
      conns := if last then conns - {user} else conns[user := kept];
    }

    method DevicesFor(user: nat, lower: string -> string) returns (rows: seq<Device>)
      ensures IsCollapsed(DevicesOf(SocketsOf(conns, user)), rows, lower)
    {
      var v := if user in conns then conns[user] else [];
      var list: seq<Device> := [];
      for i := 0 to |v|
        invariant list == DevicesOf(v[..i])
      {
        assert v[..i + 1][..i] == v[..i];
        if v[i].device.Some? {
          list := list + [v[i].device.value];
        }
      }
      assert v[..|v|] == v;
      rows := CollapseDevices(list, lower);
    }

    method SendToDevice(user: nat, device: string, frame: string) returns (sent: bool)
      requires Valid()
      modifies this`outbox
      ensures Valid()
      ensures sent == Routed(SocketsOf(conns, user), device).Some?
      ensures outbox == SentToDevice(conns, old(outbox), user, device, frame)
      ensures sent == Connected(conns, user, device)
      ensures ReachesDevice(conns, old(outbox), outbox, user, device, frame)
    {
      SentReachesDevice(conns, nextId, outbox, user, device, frame);
      if user !in conns {
        return false;
      }
      var v := conns[user];
      var i := |v|;
      assert v[..i] == v;
      while i > 0 && !(v[i - 1].device.Some? && v[i - 1].device.value.id == device)
        invariant 0 <= i <= |v| && Routed(v, device) == Routed(v[..i], device)
      {
        assert v[..i][..i - 1] == v[..i - 1];
        i := i - 1;
      }
      if i == 0 {
        return false;
      }
      assert v[..i][|v[..i]| - 1] == v[i - 1];
      outbox := outbox[v[i - 1].id := Queued(outbox[v[i - 1].id], frame)];
      return true;
    }

    method IsOnline(user: nat) returns (online: bool)
      requires Valid()
      ensures online == (user in conns)
    {
      online := user in conns && conns[user] != [];
    }

    method DeliverLocal(user: nat, frame: string)
      requires Valid()
      modifies this`outbox
      ensures Valid() && outbox == Delivered(conns, old(outbox), user, frame)
      ensures ReachesAll(conns, old(outbox), outbox, user, frame)
    {
      DeliveredReachesAll(conns, nextId, outbox, user, frame);
      if user !in conns {
        assert outbox == Delivered(conns, outbox, user, frame);
        return;
      }
      var v := conns[user];
      for i := 0 to |v|
        invariant outbox.Keys == old(outbox).Keys
        invariant forall id :: id in outbox
                    ==> outbox[id] == if HasConn(v[..i], id) then Queued(old(outbox)[id], frame) else old(outbox)[id]
      {
        HasMore(v, i);
        outbox := outbox[v[i].id := Queued(outbox[v[i].id], frame)];
      }
      assert v[..|v|] == v;
    }

    method AllowVoice(a: nat, b: nat)
      modifies this`voicePairs
      ensures voicePairs == old(voicePairs) + {PairOf(a, b)}
    {
      voicePairs := voicePairs + {PairOf(a, b)};
    }

    method DisallowVoice(a: nat, b: nat)
      modifies this`voicePairs
      ensures voicePairs == old(voicePairs) - {PairOf(a, b)}
    {
      voicePairs := voicePairs - {PairOf(a, b)};
    }

    method VoiceAllowed(a: nat, b: nat) returns (ok: bool)
      ensures ok == (PairOf(b, a) in voicePairs)
    {
      ok := PairOf(a, b) in voicePairs;
    }

    method DropVoiceFor(user: nat)
      modifies this`voicePairs
      ensures voicePairs == set p | p in old(voicePairs) && p.0 != user && p.1 != user
    {
      voicePairs := set p | p in voicePairs && p.0 != user && p.1 != user;
    }
  }

  lemma HasMore(v: seq<Conn>, i: nat)
    requires i < |v|
    ensures forall id :: HasConn(v[..i + 1], id) <==> HasConn(v[..i], id) || v[i].id == id
  {
    forall id ensures HasConn(v[..i + 1], id) <==> HasConn(v[..i], id) || v[i].id == id {
      if HasConn(v[..i], id) {
        var k :| 0 <= k < i && v[..i][k].id == id;
        assert v[..i + 1][k].id == id;
      }
      if v[i].id == id {
        assert v[..i + 1][i].id == id;
      }
    }
  }

  // ------------------------------------------------ picker and router agree

  lemma {:induction false} RoutedIsLast(v: seq<Conn>, id: string)
    ensures LastWithId(DevicesOf(v), id)
            == match Routed(v, id) case None => None case Some(c) => c.device
    ensures Routed(v, id).Some? ==> Routed(v, id).value in v && Routed(v, id).value.device.Some?
  {
    if v != [] {
      var front, d := v[..|v| - 1], v[|v| - 1].device;
      RoutedIsLast(front, id);
      if d.Some? {
        LastOfAppend(DevicesOf(front), [d.value], id);
      } else {
        assert DevicesOf(v) == DevicesOf(front);
      }
    }
  }

  /** A row of the picker is the device of the very socket a command for it would
      go to, and every device with a live socket has a row. */
  lemma RouterAgreesWithPicker(v: seq<Conn>, rows: seq<Device>, lower: string -> string)
    requires IsCollapsed(DevicesOf(v), rows, lower)
    ensures forall d :: d in rows ==> Routed(v, d.id).Some? && Routed(v, d.id).value.device == Some(d)
    ensures forall c, d :: c in v && c.device == Some(d) ==> exists e :: e in rows && e.id == d.id
  {
    forall d | d in rows ensures Routed(v, d.id).Some? && Routed(v, d.id).value.device == Some(d) {
      RoutedIsLast(v, d.id);
    }
    forall c, d | c in v && c.device == Some(d) ensures exists e :: e in rows && e.id == d.id {
      HasRoute(v, c);
      RoutedIsLast(v, d.id);
      var e := Routed(v, d.id).value.device.value;
      RoutedHasId(v, d.id);
      assert e in rows;
    }
  }

  lemma {:induction false} HasRoute(v: seq<Conn>, c: Conn)
    requires c in v && c.device.Some?
    ensures Routed(v, c.device.value.id).Some?
  {
    var front := v[..|v| - 1];
    if c != v[|v| - 1] {
      assert c in front;
      HasRoute(front, c);
    }
  }

  lemma {:induction false} RoutedHasId(v: seq<Conn>, id: string)
    requires Routed(v, id).Some?
    ensures Routed(v, id).value.device.Some? && Routed(v, id).value.device.value.id == id
  {
    if !(v[|v| - 1].device.Some? && v[|v| - 1].device.value.id == id) {
      RoutedHasId(v[..|v| - 1], id);
    }
  }
}
