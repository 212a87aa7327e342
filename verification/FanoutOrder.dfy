/** What every step of the cluster keeps: a socket's frames from one origin, the unread
    messages of its instance and that origin's queue are one line, in queue order and
    without repetition. So no socket gets a push twice. */
module FanoutOrder {
  import opened Devices
  import opened Fanout
  import opened Hub
  import opened Stories
  import opened Wrappers

  // --------------------------------------------------------------- invariant

  /** Letters of one origin, as queued there and in queue order, none twice. */
  ghost predicate InOrder(sent: seq<Letter>, s: seq<Letter>) {
    (forall k :: 0 <= k < |s| ==> s[k].pos < |sent| && sent[s[k].pos] == s[k])
    && forall k, l :: 0 <= k < l < |s| ==> s[k].pos < s[l].pos
  }

  /** Letters pushed on instance `i` itself, in push order, none twice. */
  ghost predicate Own(pushed: seq<Request>, i: nat, s: seq<Letter>) {
    (forall k :: 0 <= k < |s| ==> s[k].tag < |pushed| && pushed[s[k].tag] == Request(i, s[k].user, s[k].device))
    && forall k, l :: 0 <= k < l < |s| ==> s[k].tag < s[l].tag
  }

  /** What a socket's frames already hold from `o`, then what its instance has yet
      to read, then what `o` has yet to send. */
  function Chain(o: nat, frames: seq<Mail>, stream: seq<Mail>, queue: seq<Letter>): seq<Letter> {
    Story(frames, o) + Story(stream, o) + queue
  }

  ghost predicate LineOk(w: World, j: nat, o: nat, frames: seq<Mail>)
    requires o in w.nodes
  {
    InOrder(w.nodes[o].sent, Chain(o, frames, StreamOf(w, j), w.nodes[o].queue))
  }

  ghost predicate ChannelOk(w: World, j: nat, ch: Channel<Mail>) {
    (forall m :: m in ch.frames ==> m.0 in w.nodes && m.1.user == ch.user)
    && Own(w.pushed, j, Story(ch.frames, j))
    && forall o {:trigger LineOk(w, j, o, ch.frames)} :: o in w.nodes && o != j ==> LineOk(w, j, o, ch.frames)
  }

  /** Every letter was asked for here, is queued once, and none is owed and queued. */
  ghost predicate LedgerOk(pushed: seq<Request>, i: nat, n: Node) {
    (forall k :: 0 <= k < |n.sent| ==>
       n.sent[k].pos == k && n.sent[k].tag < |pushed| && n.sent[k].tag !in n.owed
       && pushed[n.sent[k].tag] == Request(i, n.sent[k].user, n.sent[k].device))
    && (forall k, l :: 0 <= k < l < |n.sent| ==> n.sent[k].tag != n.sent[l].tag)
    && forall t :: t in n.owed ==> t < |pushed| && pushed[t].origin == i
  }

  /** Every broadcast is owed or queued by its origin. */
  ghost predicate Accounted(w: World, t: nat)
    requires t < |w.pushed|
  {
    var r := w.pushed[t];
    r.origin in w.nodes
    && (r.device.None?
        ==> t in w.nodes[r.origin].owed || exists l :: l in w.nodes[r.origin].sent && l.tag == t)
  }

  ghost predicate ChannelsOk(w: World, j: nat)
    requires j in w.nodes
  {
    ChannelOk(w, j, Channel(0, []))
    && forall c {:trigger ChannelOk(w, j, w.nodes[j].outbox[c])} | c in w.nodes[j].outbox ::
         ChannelOk(w, j, w.nodes[j].outbox[c])
  }

  ghost predicate HubOk(n: Node) {
    ConnsOk(n.conns, n.nextId, n.outbox)
  }

  ghost predicate StreamOk(w: World, j: nat) {
    forall m :: m in StreamOf(w, j) ==> m.0 in w.nodes
  }

  ghost predicate Books(w: World) {
    (forall i {:trigger HubOk(w.nodes[i])} :: i in w.nodes ==> HubOk(w.nodes[i]))
    && (forall i {:trigger LedgerOk(w.pushed, i, w.nodes[i])} :: i in w.nodes ==> LedgerOk(w.pushed, i, w.nodes[i]))
    && (forall i {:trigger StreamOk(w, i)} :: i in w.nodes ==> StreamOk(w, i))
    && forall t {:trigger Accounted(w, t)} :: 0 <= t < |w.pushed| ==> Accounted(w, t)
  }

  ghost predicate Channels(w: World) {
    forall i {:trigger ChannelsOk(w, i)} :: i in w.nodes ==> ChannelsOk(w, i)
  }

  ghost predicate Inv(w: World) {
    Books(w) && Channels(w)
  }

  // ------------------------------------------------- what keeps a channel in order

  ghost predicate Grows(pushed: seq<Request>, longer: seq<Request>) {
    |pushed| <= |longer| && longer[..|pushed|] == pushed
  }

  lemma {:induction false} HeadFirst(log: seq<Mail>, key: nat)
    requires log != []
    ensures Story(log, key) == (if log[0].0 == key then [log[0].1] else []) + Story(log[1..], key)
    decreases |log|
  {
    if |log| > 1 {
      var front := log[..|log| - 1];
      HeadFirst(front, key);
      assert log[1..][..|log| - 2] == front[1..];
      assert log[1..][|log| - 2] == log[|log| - 1];
    }
  }

  lemma Thinned(sent: seq<Letter>, s: seq<Letter>, i: nat, j: nat)
    requires InOrder(sent, s) && i <= j <= |s|
    ensures InOrder(sent, s[..i] + s[j..])
  {
    var t := s[..i] + s[j..];
    forall k | 0 <= k < |t| ensures t[k] == s[if k < i then k else k + j - i] {}
  }

  /** A message moving from the stream to the socket stays where it was in line. */
  lemma ReadingKeepsTheLine(o: nat, frames: seq<Mail>, stream: seq<Mail>, queue: seq<Letter>)
    requires stream != []
    ensures Chain(o, frames + [stream[0]], stream[1..], queue) == Chain(o, frames, stream, queue)
  {
    StoryExtends(frames, stream[0], o);
    HeadFirst(stream, o);
  }

  lemma SkippingThinsTheLine(sent: seq<Letter>, o: nat, frames: seq<Mail>, stream: seq<Mail>, queue: seq<Letter>)
    requires stream != [] && InOrder(sent, Chain(o, frames, stream, queue))
    ensures InOrder(sent, Chain(o, frames, stream[1..], queue))
  {
    HeadFirst(stream, o);
    var s, got := Chain(o, frames, stream, queue), |Story(frames, o)|;
    var skip := if stream[0].0 == o then 1 else 0;
    Thinned(sent, s, got, got + skip);
    assert s[..got] + s[got + skip..] == Chain(o, frames, stream[1..], queue);
  }

  lemma SendingKeepsTheLine(o: nat, frames: seq<Mail>, stream: seq<Mail>, queue: seq<Letter>)
    requires queue != []
    ensures Chain(o, frames, stream + [(o, queue[0])], queue[1..]) == Chain(o, frames, stream, queue)
  {
    StoryExtends(stream, (o, queue[0]), o);
    assert queue == [queue[0]] + queue[1..];
  }

  lemma LosingThinsTheLine(sent: seq<Letter>, o: nat, frames: seq<Mail>, stream: seq<Mail>, queue: seq<Letter>)
    requires InOrder(sent, Chain(o, frames, stream, queue))
    ensures InOrder(sent, Chain(o, frames, [], queue))
    ensures queue != [] ==> InOrder(sent, Chain(o, frames, stream, queue[1..]))
  {
    var s, got, seen := Chain(o, frames, stream, queue), |Story(frames, o)|, |Story(frames, o) + Story(stream, o)|;
    Thinned(sent, s, got, seen);
    assert s[..got] + s[seen..] == Chain(o, frames, [], queue);
    if queue != [] {
      Thinned(sent, s, seen, seen + 1);
      assert s[..seen] + s[seen + 1..] == Chain(o, frames, stream, queue[1..]);
    }
  }

  lemma Lengthened(sent: seq<Letter>, s: seq<Letter>, l: Letter)
    requires InOrder(sent, s) && l.pos == |sent|
    ensures InOrder(sent + [l], s + [l])
  {
  }

  lemma OwnGrows(pushed: seq<Request>, longer: seq<Request>, i: nat, s: seq<Letter>)
    requires Own(pushed, i, s) && Grows(pushed, longer)
    ensures Own(longer, i, s)
  {
    forall t | 0 <= t < |pushed| ensures longer[t] == pushed[t] {
      assert longer[..|pushed|][t] == longer[t];
    }
  }

  lemma ChannelFrame(w: World, w2: World, j: nat, ch: Channel<Mail>)
    requires ChannelOk(w, j, ch) && w2.nodes.Keys == w.nodes.Keys && Grows(w.pushed, w2.pushed)
    requires StreamOf(w2, j) == StreamOf(w, j)
    requires forall o :: o in w.nodes && o != j
               ==> w2.nodes[o].sent == w.nodes[o].sent && w2.nodes[o].queue == w.nodes[o].queue
    ensures ChannelOk(w2, j, ch)
  {
    OwnGrows(w.pushed, w2.pushed, j, Story(ch.frames, j));
    forall o | o in w2.nodes && o != j ensures LineOk(w2, j, o, ch.frames) {
      assert LineOk(w, j, o, ch.frames);
    }
  }

  lemma ChannelTakesOwn(w: World, j: nat, ch: Channel<Mail>, l: Letter, r: Request)
    requires ChannelOk(w, j, ch) && j in w.nodes && l.tag == |w.pushed| && l.user == ch.user
    requires r == Request(j, l.user, l.device)
    ensures ChannelOk(w.(pushed := w.pushed + [r]), j, Queued(ch, (j, l)))
  {
    var w2, ch2 := w.(pushed := w.pushed + [r]), Queued(ch, (j, l));
    StoryExtends(ch.frames, (j, l), j);
    OwnGrows(w.pushed, w2.pushed, j, Story(ch.frames, j));
    forall o | o in w.nodes && o != j ensures LineOk(w2, j, o, ch2.frames) {
      StoryExtends(ch.frames, (j, l), o);
      assert LineOk(w, j, o, ch.frames);
    }
  }

  lemma ChannelSeesEnqueue(w: World, w2: World, i: nat, j: nat, ch: Channel<Mail>, l: Letter)
    requires ChannelOk(w, j, ch) && w2.nodes.Keys == w.nodes.Keys && w2.streams == w.streams && w2.pushed == w.pushed
    requires i in w.nodes && l.pos == |w.nodes[i].sent|
    requires w2.nodes[i].sent == w.nodes[i].sent + [l] && w2.nodes[i].queue == w.nodes[i].queue + [l]
    requires forall o :: o in w.nodes && o != i ==> w2.nodes[o] == w.nodes[o]
    ensures ChannelOk(w2, j, ch)
  {
    forall o | o in w2.nodes && o != j ensures LineOk(w2, j, o, ch.frames) {
      assert LineOk(w, j, o, ch.frames);
      if o == i {
        var line := Chain(i, ch.frames, StreamOf(w, j), w.nodes[i].queue);
        Lengthened(w.nodes[i].sent, line, l);
        assert Chain(i, ch.frames, StreamOf(w2, j), w2.nodes[i].queue) == line + [l];
      }
    }
  }

  lemma ChannelSeesDrain(w: World, i: nat, ok: bool, j: nat, ch: Channel<Mail>)
    requires ChannelOk(w, j, ch) && i in w.nodes && w.nodes[i].queue != []
    ensures ChannelOk(Step(w, Drain(i, ok)), j, ch)
  {
    var w2, queue := Step(w, Drain(i, ok)), w.nodes[i].queue;
    forall o | o in w2.nodes && o != j ensures LineOk(w2, j, o, ch.frames) {
      assert LineOk(w, j, o, ch.frames);
      if o == i {
        SendingKeepsTheLine(i, ch.frames, StreamOf(w, j), queue);
        LosingThinsTheLine(w.nodes[i].sent, i, ch.frames, StreamOf(w, j), queue);
      } else {
        StoryExtends(StreamOf(w, j), (i, queue[0]), o);
      }
    }
  }

  lemma LineAfterReceive(w: World, w2: World, j: nat, o: nat, frames: seq<Mail>)
    requires o in w.nodes && o in w2.nodes && LineOk(w, j, o, frames)
    requires StreamOf(w, j) != [] && StreamOf(w2, j) == StreamOf(w, j)[1..]
    requires w2.nodes[o].sent == w.nodes[o].sent && w2.nodes[o].queue == w.nodes[o].queue
    ensures LineOk(w2, j, o, frames) && LineOk(w2, j, o, frames + [StreamOf(w, j)[0]])
  {
    ReadingKeepsTheLine(o, frames, StreamOf(w, j), w.nodes[o].queue);
    SkippingThinsTheLine(w.nodes[o].sent, o, frames, StreamOf(w, j), w.nodes[o].queue);
  }

  /** The subscriber reads one message and the socket does not get it, or does. */
  lemma ChannelSeesReceive(w: World, w2: World, j: nat, ch: Channel<Mail>)
    requires ChannelOk(w, j, ch) && StreamOf(w, j) != [] && StreamOf(w2, j) == StreamOf(w, j)[1..]
    requires w2.nodes.Keys == w.nodes.Keys && w2.pushed == w.pushed
    requires forall o :: o in w.nodes ==> w2.nodes[o].sent == w.nodes[o].sent && w2.nodes[o].queue == w.nodes[o].queue
    ensures ChannelOk(w2, j, ch)
  {
    forall o | o in w2.nodes && o != j ensures LineOk(w2, j, o, ch.frames) {
      LineAfterReceive(w, w2, j, o, ch.frames);
    }
  }

  lemma ChannelTakesMail(w: World, w2: World, j: nat, ch: Channel<Mail>, m: Mail)
    requires ChannelOk(w, j, ch) && StreamOf(w, j) != [] && StreamOf(w2, j) == StreamOf(w, j)[1..]
    requires w2.nodes.Keys == w.nodes.Keys && w2.pushed == w.pushed
    requires forall o :: o in w.nodes ==> w2.nodes[o].sent == w.nodes[o].sent && w2.nodes[o].queue == w.nodes[o].queue
    requires m == StreamOf(w, j)[0] && m.0 in w.nodes && m.0 != j && m.1.user == ch.user
    ensures ChannelOk(w2, j, Queued(ch, m))
  {
    StoryExtends(ch.frames, m, j);
    forall o | o in w2.nodes && o != j ensures LineOk(w2, j, o, ch.frames + [m]) {
      LineAfterReceive(w, w2, j, o, ch.frames);
    }
  }

  lemma ChannelLosesStream(w: World, w2: World, j: nat, ch: Channel<Mail>)
    requires ChannelOk(w, j, ch) && w2.nodes == w.nodes && w2.pushed == w.pushed && StreamOf(w2, j) == []
    ensures ChannelOk(w2, j, ch)
  {
    forall o | o in w2.nodes && o != j ensures LineOk(w2, j, o, ch.frames) {
      assert LineOk(w, j, o, ch.frames);
      LosingThinsTheLine(w.nodes[o].sent, o, ch.frames, StreamOf(w, j), w.nodes[o].queue);
    }
  }

  // ------------------------------------------------------------ every step keeps it

  lemma RegisteringKeepsHub(n: Node, user: nat, device: Option<Device>)
    requires HubOk(n)
    ensures HubOk(Opened(n, user, device))
  {
    var n2, c := Opened(n, user, device), Conn(n.nextId, device);
    forall u | u in n2.conns ensures ListOk(n2.conns[u], u, n2.outbox) {
      if u == user {
        assert forall d :: d in SocketsOf(n.conns, user) ==> d.id in n.outbox;
      } else {
        assert ListOk(n.conns[u], u, n.outbox);
      }
    }
  }

  lemma ClosingKeepsHub(n: Node, user: nat, conn: nat)
    requires HubOk(n)
    ensures HubOk(n.(conns := Unregistered(n.conns, user, conn)))
  {
    var conns := Unregistered(n.conns, user, conn);
    forall u | u in conns ensures ListOk(conns[u], u, n.outbox) {
      assert ListOk(n.conns[u], u, n.outbox);
      WithoutConnKeeps(n.conns[u], conn);
    }
  }

  /** Frames reach only sockets of the account they are for. */
  lemma OnlyTheirSockets(n: Node, user: nat, id: nat)
    requires HubOk(n) && HasConn(SocketsOf(n.conns, user), id)
    ensures id in n.outbox && n.outbox[id].user == user
  {
    assert ListOk(n.conns[user], user, n.outbox);
    var k :| 0 <= k < |n.conns[user]| && n.conns[user][k].id == id;
    assert n.conns[user][k] in n.conns[user];
  }

  lemma {:induction false} RoutedIsThere(v: seq<Conn>, device: string)
    requires Routed(v, device).Some?
    ensures HasConn(v, Routed(v, device).value.id)
  {
    var front, c := v[..|v| - 1], v[|v| - 1];
    if c.device.Some? && c.device.value.id == device {
      assert v[|v| - 1].id == c.id;
    } else {
      RoutedIsThere(front, device);
      var k :| 0 <= k < |front| && front[k].id == Routed(front, device).value.id;
      assert v[k].id == front[k].id;
    }
  }

  /** Every queue after a hand-over is as before, or has the frame and is the addressee's. */
  ghost predicate HandedOver(before: Outbox<Mail>, after: Outbox<Mail>, user: nat, m: Mail) {
    after.Keys == before.Keys
    && forall id | id in before ::
         after[id] == before[id] || (before[id].user == user && after[id] == Queued(before[id], m))
  }

  lemma DeliveringHandsOver(n: Node, user: nat, m: Mail)
    requires HubOk(n)
    ensures HandedOver(n.outbox, Delivered(n.conns, n.outbox, user, m), user, m)
  {
    forall id | HasConn(SocketsOf(n.conns, user), id) ensures id in n.outbox && n.outbox[id].user == user {
      OnlyTheirSockets(n, user, id);
    }
  }

  lemma SendingHandsOver(n: Node, user: nat, device: string, m: Mail)
    requires HubOk(n)
    ensures HandedOver(n.outbox, SentToDevice(n.conns, n.outbox, user, device, m), user, m)
  {
    var v := SocketsOf(n.conns, user);
    if Routed(v, device).Some? {
      RoutedIsThere(v, device);
      OnlyTheirSockets(n, user, Routed(v, device).value.id);
    }
  }

  lemma HandedOverKeepsHub(n: Node, after: Outbox<Mail>, user: nat, m: Mail)
    requires HubOk(n) && HandedOver(n.outbox, after, user, m)
    ensures HubOk(n.(outbox := after))
  {
    forall u | u in n.conns ensures ListOk(n.conns[u], u, after) {
      assert ListOk(n.conns[u], u, n.outbox);
    }
  }

  lemma ChannelsFrame(w: World, w2: World, j: nat)
    requires j in w.nodes && ChannelsOk(w, j) && w2.nodes.Keys == w.nodes.Keys && Grows(w.pushed, w2.pushed)
    requires StreamOf(w2, j) == StreamOf(w, j)
    requires forall o :: o in w.nodes && o != j
               ==> w2.nodes[o].sent == w.nodes[o].sent && w2.nodes[o].queue == w.nodes[o].queue
    requires forall c :: c in w2.nodes[j].outbox
               ==> w2.nodes[j].outbox[c].frames == []
                   || (c in w.nodes[j].outbox && w2.nodes[j].outbox[c] == w.nodes[j].outbox[c])
    ensures ChannelsOk(w2, j)
  {
    ChannelFrame(w, w2, j, Channel(0, []));
    forall c | c in w2.nodes[j].outbox ensures ChannelOk(w2, j, w2.nodes[j].outbox[c]) {
      if w2.nodes[j].outbox[c].frames != [] {
        ChannelFrame(w, w2, j, w2.nodes[j].outbox[c]);
      }
    }
  }

  lemma AccountsFrame(w: World, w2: World, t: nat)
    requires t < |w.pushed| && Accounted(w, t) && Grows(w.pushed, w2.pushed) && w2.nodes.Keys == w.nodes.Keys
    requires forall o :: o in w.nodes ==> w.nodes[o].owed <= w2.nodes[o].owed && w2.nodes[o].sent == w.nodes[o].sent
    ensures Accounted(w2, t)
  {
    assert w2.pushed[..|w.pushed|][t] == w2.pushed[t];
  }

  lemma LedgerFrame(pushed: seq<Request>, longer: seq<Request>, i: nat, n: Node, n2: Node)
    requires LedgerOk(pushed, i, n) && Grows(pushed, longer) && n2.sent == n.sent && n2.owed == n.owed
    ensures LedgerOk(longer, i, n2)
  {
    forall t | 0 <= t < |pushed| ensures longer[t] == pushed[t] {
      assert longer[..|pushed|][t] == longer[t];
    }
  }

  /** Steps that neither push nor queue leave the books as they were. */
  lemma QuietKeepsBooks(w: World, w2: World)
    requires Books(w) && w2.nodes.Keys == w.nodes.Keys && w2.pushed == w.pushed
    requires forall i :: i in w.nodes ==> w2.nodes[i].sent == w.nodes[i].sent && w2.nodes[i].owed == w.nodes[i].owed
    requires forall i :: i in w.nodes ==> HubOk(w2.nodes[i]) && StreamOk(w2, i)
    ensures Books(w2)
  {
    forall i | i in w2.nodes ensures LedgerOk(w2.pushed, i, w2.nodes[i]) {
      LedgerFrame(w.pushed, w2.pushed, i, w.nodes[i], w2.nodes[i]);
    }
    forall t | 0 <= t < |w2.pushed| ensures Accounted(w2, t) {
      AccountsFrame(w, w2, t);
    }
  }

  ghost predicate SameHub(n: Node, n2: Node) {
    n2.conns == n.conns && n2.nextId == n.nextId && n2.outbox == n.outbox
  }

  lemma SameHubOk(n: Node, n2: Node)
    requires HubOk(n) && SameHub(n, n2)
    ensures HubOk(n2)
  {
  }

  lemma HubStepKeepsBooks(w: World, i: nat, n2: Node)
    requires Books(w) && i in w.nodes && HubOk(n2) && n2.sent == w.nodes[i].sent && n2.owed == w.nodes[i].owed
    ensures Books(w.(nodes := w.nodes[i := n2]))
  {
    var w2 := w.(nodes := w.nodes[i := n2]);
    forall j | j in w.nodes ensures StreamOk(w2, j) && HubOk(w2.nodes[j]) {
      assert StreamOk(w, j);
    }
    QuietKeepsBooks(w, w2);
  }

  lemma OpenKeepsInv(w: World, i: nat, user: nat, device: Option<Device>)
    requires Inv(w) && i in w.nodes
    ensures Inv(Step(w, Open(i, user, device)))
  {
    var w2 := Step(w, Open(i, user, device));
    RegisteringKeepsHub(w.nodes[i], user, device);
    HubStepKeepsBooks(w, i, Opened(w.nodes[i], user, device));
    forall j | j in w2.nodes ensures ChannelsOk(w2, j) {
      assert ChannelsOk(w, j);
      ChannelsFrame(w, w2, j);
    }
  }

  lemma CloseKeepsInv(w: World, i: nat, user: nat, conn: nat)
    requires Inv(w) && i in w.nodes
    ensures Inv(Step(w, Close(i, user, conn)))
  {
    var w2 := Step(w, Close(i, user, conn));
    ClosingKeepsHub(w.nodes[i], user, conn);
    HubStepKeepsBooks(w, i, w2.nodes[i]);
    forall j | j in w2.nodes ensures ChannelsOk(w2, j) {
      assert ChannelsOk(w, j);
      ChannelsFrame(w, w2, j);
    }
  }

  lemma SubscriberUpKeepsInv(w: World, i: nat)
    requires Inv(w)
    ensures Inv(Step(w, SubscriberUp(i)))
  {
    var w2 := Step(w, SubscriberUp(i));
    forall j | j in w2.nodes ensures StreamOk(w2, j) && ChannelsOk(w2, j) {
      assert StreamOk(w, j) && ChannelsOk(w, j);
      ChannelsFrame(w, w2, j);
    }
    QuietKeepsBooks(w, w2);
  }

  lemma SubscriberDownKeepsInv(w: World, i: nat)
    requires Inv(w)
    ensures Inv(Step(w, SubscriberDown(i)))
  {
    var w2 := Step(w, SubscriberDown(i));
    forall j | j in w2.nodes ensures StreamOk(w2, j) && ChannelsOk(w2, j) {
      assert StreamOk(w, j) && ChannelsOk(w, j);
      if j == i && i in w.nodes {
        ChannelLosesStream(w, w2, j, Channel(0, []));
        forall c | c in w2.nodes[j].outbox ensures ChannelOk(w2, j, w2.nodes[j].outbox[c]) {
          assert ChannelOk(w, j, w.nodes[j].outbox[c]);
          ChannelLosesStream(w, w2, j, w.nodes[j].outbox[c]);
        }
      } else {
        ChannelsFrame(w, w2, j);
      }
    }
    QuietKeepsBooks(w, w2);
  }

  /** A push: local hand-over now, and the frame owed to the queue or not. */
  ghost predicate PushStep(w: World, w2: World, i: nat, r: Request) {
    i in w.nodes && i in w2.nodes && r.origin == i && w2.pushed == w.pushed + [r] && w2.streams == w.streams
    && w2.nodes == w.nodes[i := w2.nodes[i]]
    && w2.nodes[i] == w.nodes[i].(outbox := w2.nodes[i].outbox, owed := w2.nodes[i].owed)
    && w.nodes[i].owed <= w2.nodes[i].owed <= w.nodes[i].owed + {|w.pushed|}
    && (r.device.None? ==> |w.pushed| in w2.nodes[i].owed)
    && HandedOver(w.nodes[i].outbox, w2.nodes[i].outbox, r.user, (i, Letter(r.user, r.device, |w.pushed|, 0)))
  }

  lemma PushKeepsLedger(w: World, w2: World, i: nat, r: Request, j: nat)
    requires j in w.nodes && LedgerOk(w.pushed, j, w.nodes[j]) && PushStep(w, w2, i, r)
    ensures LedgerOk(w2.pushed, j, w2.nodes[j])
  {
    LedgerFrame(w.pushed, w2.pushed, j, w.nodes[j], w.nodes[j]);
  }

  lemma PushKeepsBooks(w: World, w2: World, i: nat, r: Request)
    requires Books(w) && PushStep(w, w2, i, r)
    ensures Books(w2)
  {
    HandedOverKeepsHub(w.nodes[i], w2.nodes[i].outbox, r.user, (i, Letter(r.user, r.device, |w.pushed|, 0)));
    forall j | j in w2.nodes ensures HubOk(w2.nodes[j]) && LedgerOk(w2.pushed, j, w2.nodes[j]) && StreamOk(w2, j) {
      assert StreamOk(w, j) && (j == i || SameHub(w.nodes[j], w2.nodes[j]));
      PushKeepsLedger(w, w2, i, r, j);
    }
    forall t | 0 <= t < |w2.pushed| ensures Accounted(w2, t) {
      if t < |w.pushed| {
        AccountsFrame(w, w2, t);
      }
    }
  }

  lemma ChannelsSeePush(w: World, w2: World, i: nat, r: Request)
    requires PushStep(w, w2, i, r) && ChannelsOk(w, i)
    ensures ChannelsOk(w2, i)
  {
    var l, mid := Letter(r.user, r.device, |w.pushed|, 0), w.(pushed := w.pushed + [r]);
    ChannelFrame(w, w2, i, Channel(0, []));
    forall c | c in w2.nodes[i].outbox ensures ChannelOk(w2, i, w2.nodes[i].outbox[c]) {
      var ch := w.nodes[i].outbox[c];
      assert ChannelOk(w, i, w.nodes[i].outbox[c]);
      if w2.nodes[i].outbox[c] == ch {
        ChannelFrame(w, w2, i, ch);
      } else {
        ChannelTakesOwn(w, i, ch, l, r);
        ChannelFrame(mid, w2, i, Queued(ch, (i, l)));
      }
    }
  }

  lemma PushKeepsChannels(w: World, w2: World, i: nat, r: Request)
    requires Channels(w) && PushStep(w, w2, i, r)
    ensures Channels(w2)
  {
    forall j | j in w2.nodes ensures ChannelsOk(w2, j) {
      assert ChannelsOk(w, j);
      if j != i {
        ChannelsFrame(w, w2, j);
      } else {
        ChannelsSeePush(w, w2, i, r);
      }
    }
  }

  lemma EnqueueKeepsLedger(pushed: seq<Request>, i: nat, n: Node, tag: nat)
    requires LedgerOk(pushed, i, n) && tag in n.owed && tag < |pushed|
    ensures LedgerOk(pushed, i, Enqueued(n, pushed[tag], tag))
  {
  }

  lemma EnqueueKeepsAccount(w: World, i: nat, tag: nat, t: nat)
    requires i in w.nodes && tag in w.nodes[i].owed && tag < |w.pushed| && t < |w.pushed| && Accounted(w, t)
    ensures Accounted(Step(w, Enqueue(i, tag)), t)
  {
    var sent, sent2 := w.nodes[i].sent, Step(w, Enqueue(i, tag)).nodes[i].sent;
    assert sent2[|sent|].tag == tag && sent2[|sent|] in sent2;
    assert forall l :: l in sent ==> l in sent2;
  }

  lemma EnqueueKeepsBooks(w: World, i: nat, tag: nat)
    requires Books(w) && i in w.nodes && tag in w.nodes[i].owed && tag < |w.pushed|
    ensures Books(Step(w, Enqueue(i, tag)))
  {
    var w2 := Step(w, Enqueue(i, tag));
    EnqueueKeepsLedger(w.pushed, i, w.nodes[i], tag);
    forall j | j in w2.nodes ensures HubOk(w2.nodes[j]) && StreamOk(w2, j) {
      assert StreamOk(w, j);
      SameHubOk(w.nodes[j], w2.nodes[j]);
    }
    forall t | 0 <= t < |w2.pushed| ensures Accounted(w2, t) {
      EnqueueKeepsAccount(w, i, tag, t);
    }
  }

  lemma ChannelsSeeEnqueue(w: World, i: nat, tag: nat, j: nat)
    requires i in w.nodes && tag in w.nodes[i].owed && tag < |w.pushed| && j in w.nodes && ChannelsOk(w, j)
    ensures ChannelsOk(Step(w, Enqueue(i, tag)), j)
  {
    var w2 := Step(w, Enqueue(i, tag));
    var l := Letter(w.pushed[tag].user, w.pushed[tag].device, tag, |w.nodes[i].sent|);
    ChannelSeesEnqueue(w, w2, i, j, Channel(0, []), l);
    assert w2.nodes[j].outbox == w.nodes[j].outbox;
    forall c | c in w2.nodes[j].outbox ensures ChannelOk(w2, j, w2.nodes[j].outbox[c]) {
      assert ChannelOk(w, j, w.nodes[j].outbox[c]);
      ChannelSeesEnqueue(w, w2, i, j, w.nodes[j].outbox[c], l);
    }
  }

  lemma EnqueueKeepsChannels(w: World, i: nat, tag: nat)
    requires Channels(w) && i in w.nodes && tag in w.nodes[i].owed && tag < |w.pushed|
    ensures Channels(Step(w, Enqueue(i, tag)))
  {
    var w2 := Step(w, Enqueue(i, tag));
    forall j | j in w2.nodes ensures ChannelsOk(w2, j) {
      assert ChannelsOk(w, j);
      ChannelsSeeEnqueue(w, i, tag, j);
    }
  }

  lemma ChannelsSeeDrain(w: World, i: nat, ok: bool, j: nat)
    requires i in w.nodes && w.nodes[i].queue != [] && j in w.nodes && ChannelsOk(w, j)
    ensures ChannelsOk(Step(w, Drain(i, ok)), j)
  {
    var w2 := Step(w, Drain(i, ok));
    ChannelSeesDrain(w, i, ok, j, Channel(0, []));
    assert w2.nodes[j].outbox == w.nodes[j].outbox;
    forall c | c in w2.nodes[j].outbox ensures ChannelOk(w2, j, w2.nodes[j].outbox[c]) {
      assert ChannelOk(w, j, w.nodes[j].outbox[c]);
      ChannelSeesDrain(w, i, ok, j, w.nodes[j].outbox[c]);
    }
  }

  lemma DrainKeepsChannels(w: World, i: nat, ok: bool)
    requires Channels(w) && i in w.nodes && w.nodes[i].queue != []
    ensures Channels(Step(w, Drain(i, ok)))
  {
    var w2 := Step(w, Drain(i, ok));
    forall j | j in w2.nodes ensures ChannelsOk(w2, j) {
      assert ChannelsOk(w, j);
      ChannelsSeeDrain(w, i, ok, j);
    }
  }

  lemma DrainKeepsBooks(w: World, i: nat, ok: bool)
    requires Books(w) && i in w.nodes && w.nodes[i].queue != []
    ensures Books(Step(w, Drain(i, ok)))
  {
    var w2 := Step(w, Drain(i, ok));
    forall j | j in w2.nodes ensures HubOk(w2.nodes[j]) && StreamOk(w2, j) {
      assert StreamOk(w, j);
      SameHubOk(w.nodes[j], w2.nodes[j]);
    }
    QuietKeepsBooks(w, w2);
  }

  lemma HandlingHandsOver(i: nat, n: Node, m: Mail)
    requires HubOk(n)
    ensures HandedOver(n.outbox, Received(n, i, m).outbox, m.1.user, m)
    ensures m.0 == i ==> Received(n, i, m) == n
  {
    if m.1.device.None? {
      DeliveringHandsOver(n, m.1.user, m);
    } else {
      SendingHandsOver(n, m.1.user, m.1.device.value, m);
    }
  }

  lemma ReceiveKeepsBooks(w: World, i: nat)
    requires Books(w) && i in w.nodes && i in w.streams && w.streams[i] != []
    ensures Books(Step(w, Receive(i)))
  {
    var w2, n, m := Step(w, Receive(i)), w.nodes[i], w.streams[i][0];
    HandlingHandsOver(i, n, m);
    HandedOverKeepsHub(n, w2.nodes[i].outbox, m.1.user, m);
    forall j | j in w2.nodes ensures StreamOk(w2, j) {
      assert StreamOk(w, j);
    }
    QuietKeepsBooks(w, w2);
  }

  lemma ChannelsSeeReceive(w: World, i: nat)
    requires i in w.nodes && i in w.streams && w.streams[i] != [] && ChannelsOk(w, i)
    requires HubOk(w.nodes[i]) && StreamOk(w, i)
    ensures ChannelsOk(Step(w, Receive(i)), i)
  {
    var w2, n, m := Step(w, Receive(i)), w.nodes[i], w.streams[i][0];
    HandlingHandsOver(i, n, m);
    ChannelSeesReceive(w, w2, i, Channel(0, []));
    forall c | c in w2.nodes[i].outbox ensures ChannelOk(w2, i, w2.nodes[i].outbox[c]) {
      assert ChannelOk(w, i, n.outbox[c]);
      if w2.nodes[i].outbox[c] == n.outbox[c] {
        ChannelSeesReceive(w, w2, i, n.outbox[c]);
      } else {
        ChannelTakesMail(w, w2, i, n.outbox[c], m);
      }
    }
  }

  lemma ReceiveKeepsChannels(w: World, i: nat)
    requires Channels(w) && i in w.nodes && i in w.streams && w.streams[i] != []
    requires HubOk(w.nodes[i]) && StreamOk(w, i)
    ensures Channels(Step(w, Receive(i)))
  {
    var w2 := Step(w, Receive(i));
    forall j | j in w2.nodes ensures ChannelsOk(w2, j) {
      assert ChannelsOk(w, j);
      if j != i {
        ChannelsFrame(w, w2, j);
      } else {
        ChannelsSeeReceive(w, i);
      }
    }
  }

  lemma StepKeepsInv(w: World, e: Event)
    requires Inv(w)
    ensures Inv(Step(w, e))
  {
    if e.i !in w.nodes {
    } else if e.Open? {
      OpenKeepsInv(w, e.i, e.user, e.device);
    } else if e.Close? {
      CloseKeepsInv(w, e.i, e.user, e.conn);
    } else if e.SubscriberUp? {
      SubscriberUpKeepsInv(w, e.i);
    } else if e.SubscriberDown? {
      SubscriberDownKeepsInv(w, e.i);
    } else if e.Push? {
      PushIsPushStep(w, e.i, e.user);
      PushKeepsBooks(w, Step(w, e), e.i, Request(e.i, e.user, None));
      PushKeepsChannels(w, Step(w, e), e.i, Request(e.i, e.user, None));
    } else if e.PushDevice? {
      PushDeviceIsPushStep(w, e.i, e.user, e.target);
      PushKeepsBooks(w, Step(w, e), e.i, Request(e.i, e.user, Some(e.target)));
      PushKeepsChannels(w, Step(w, e), e.i, Request(e.i, e.user, Some(e.target)));
    } else if e.Enqueue? {
      if e.tag in w.nodes[e.i].owed && e.tag < |w.pushed| {
        EnqueueKeepsBooks(w, e.i, e.tag);
        EnqueueKeepsChannels(w, e.i, e.tag);
      }
    } else if e.Drain? {
      if w.nodes[e.i].queue != [] {
        DrainKeepsBooks(w, e.i, e.ok);
        DrainKeepsChannels(w, e.i, e.ok);
      }
    } else if e.i in w.streams && w.streams[e.i] != [] {
      assert HubOk(w.nodes[e.i]) && StreamOk(w, e.i);
      ReceiveKeepsBooks(w, e.i);
      ReceiveKeepsChannels(w, e.i);
    }
  }

  lemma PushIsPushStep(w: World, i: nat, user: nat)
    requires Inv(w) && i in w.nodes
    ensures PushStep(w, Step(w, Push(i, user)), i, Request(i, user, None))
  {
    DeliveringHandsOver(w.nodes[i], user, (i, Letter(user, None, |w.pushed|, 0)));
  }

  lemma PushDeviceIsPushStep(w: World, i: nat, user: nat, target: string)
    requires Inv(w) && i in w.nodes
    ensures PushStep(w, Step(w, PushDevice(i, user, target)), i, Request(i, user, Some(target)))
  {
    SendingHandsOver(w.nodes[i], user, target, (i, Letter(user, Some(target), |w.pushed|, 0)));
  }

  lemma {:induction false} RunKeepsInv(ids: set<nat>, events: seq<Event>)
    ensures Inv(Run(ids, events))
  {
    if events != [] {
      RunKeepsInv(ids, events[..|events| - 1]);
      StepKeepsInv(Run(ids, events[..|events| - 1]), events[|events| - 1]);
    }
  }

  // ------------------------------------------------------------- at most once

  /** Every frame a socket got was asked for by the instance it came from and is for
      the socket's own account; from another instance, it is that instance's letter
      at that place of its queue. */
  lemma FrameIsGenuine(ids: set<nat>, events: seq<Event>, i: nat, c: nat, k: nat)
    requires var w := Run(ids, events); i in w.nodes && c in w.nodes[i].outbox && k < |w.nodes[i].outbox[c].frames|
    ensures var w := Run(ids, events);
            var (o, l) := w.nodes[i].outbox[c].frames[k];
            && l.tag < |w.pushed| && w.pushed[l.tag] == Request(o, l.user, l.device)
            && l.user == w.nodes[i].outbox[c].user
            && o in w.nodes && (o != i ==> l.pos < |w.nodes[o].sent| && w.nodes[o].sent[l.pos] == l)
  {
    RunKeepsInv(ids, events);
    var w := Run(ids, events);
    var frames := w.nodes[i].outbox[c].frames;
    var o := frames[k].0;
    assert ChannelsOk(w, i) && ChannelOk(w, i, w.nodes[i].outbox[c]) && frames[k] in frames;
    StoryAtPlace(frames, k);
    if o != i {
      assert LineOk(w, i, o, frames);
      AtInChain(o, frames, StreamOf(w, i), w.nodes[o].queue, k);
      assert LedgerOk(w.pushed, o, w.nodes[o]);
    }
  }

  /** A socket's frames of one origin stand at its chain's front. */
  lemma AtInChain(o: nat, frames: seq<Mail>, stream: seq<Mail>, queue: seq<Letter>, k: nat)
    requires k < |frames| && frames[k].0 == o
    ensures Place(frames, k) < |Chain(o, frames, stream, queue)|
    ensures Chain(o, frames, stream, queue)[Place(frames, k)] == frames[k].1
  {
    StoryAtPlace(frames, k);
  }

  /** No socket gets one push twice, in any interleaving; and it sees the frames of
      another instance in the order that instance queued them. */
  lemma AtMostOnceAndInOrder(ids: set<nat>, events: seq<Event>, i: nat, c: nat, k: nat, k2: nat)
    requires var w := Run(ids, events);
             i in w.nodes && c in w.nodes[i].outbox && k < k2 < |w.nodes[i].outbox[c].frames|
    ensures var frames := Run(ids, events).nodes[i].outbox[c].frames;
            && frames[k].1.tag != frames[k2].1.tag
            && (frames[k].0 == frames[k2].0 != i ==> frames[k].1.pos < frames[k2].1.pos)
  {
    FrameIsGenuine(ids, events, i, c, k);
    FrameIsGenuine(ids, events, i, c, k2);
    RunKeepsInv(ids, events);
    var w := Run(ids, events);
    var frames := w.nodes[i].outbox[c].frames;
    var o := frames[k].0;
    if o == frames[k2].0 {
      assert ChannelsOk(w, i) && ChannelOk(w, i, w.nodes[i].outbox[c]);
      PlacesGrow(frames, k, k2);
      StoryAtPlace(frames, k);
      StoryAtPlace(frames, k2);
      if o != i {
        assert LineOk(w, i, o, frames) && LedgerOk(w.pushed, o, w.nodes[o]);
        AtInChain(o, frames, StreamOf(w, i), w.nodes[o].queue, k);
        AtInChain(o, frames, StreamOf(w, i), w.nodes[o].queue, k2);
      }
    }
  }
}
