/**
  Who dials whom. Every joiner reads its orders at its own pace; of every two, only the older dials the other.
*/
module Dialling {
  import opened Wrappers
  import opened RoomProtocol
  import opened RoomAuthority
  import opened HostLinks
  import opened Mesh
  import FileFinalisation
  import Replica

  /** Exactly when a message makes a joiner dial, and that it then dials whom it was told to, in its own name. */
  lemma WhenAJoinerDials(v: Replica.View, m: AuthorityMessage)
    ensures DialFor(v, m) == NoDial <==>
            || m.Told? || !m.dial || m.peer.id in v.links || v.self == None || v.self == Some(m.peer.id)
    ensures DialFor(v, m).DialPeer? <==>
            && m.PeerConnect? && m.dial && m.peer.id !in v.links
            && v.self.Some? && v.self.value != m.peer.id && v.self.value in v.members
    ensures DialFor(v, m).DialPeer? ==>
              DialFor(v, m) == DialPeer(v.members[v.self.value], m.peer, m.ticket)
  {
  }

  function Dialled(v: Replica.View, m: AuthorityMessage): seq<Dial> {
    if DialFor(v, m).DialPeer? then [DialFor(v, m)] else []
  }

  /** Whom a joiner dials along a schedule, with `n` messages of its authority link already read. */
  ghost function DialsAlong(v: Replica.View, queue: seq<AuthorityMessage>, n: nat, schedule: seq<Arrival>): seq<Dial>
    decreases schedule
  {
    if schedule == [] then []
    else if !schedule[0].FromAuthority? then
      var r := Arrived(v, schedule[0]);
      if r.stopped then [] else DialsAlong(r.view, queue, n, schedule[1..])
    else if n >= |queue| then DialsAlong(v, queue, n, schedule[1..])
    else
      var r := Received(v, queue[n]);
      Dialled(v, queue[n]) + if r.stopped then [] else DialsAlong(r.view, queue, n + 1, schedule[1..])
  }

  /** The dials of one member among others. */
  function DialsTo(dials: seq<Dial>, p: MemberId): seq<Dial> {
    if dials == [] then []
    else (if dials[0].DialPeer? && dials[0].peer.id == p then [dials[0]] else []) + DialsTo(dials[1..], p)
  }

  lemma {:induction false} DialsToAppend(a: seq<Dial>, b: seq<Dial>, p: MemberId)
    ensures DialsTo(a + b, p) == DialsTo(a, p) + DialsTo(b, p)
  {
    if a == [] {
      assert a + b == b;
    } else {
      assert (a + b)[1..] == a[1..] + b;
      DialsToAppend(a[1..], b, p);
    }
  }

  /** The orders about one member that are still to be read, the first one apart. */
  lemma OrdersNext(queue: seq<AuthorityMessage>, n: nat, b: MemberId)
    requires n < |queue|
    ensures Orders(queue[n..], b) ==
              (if queue[n].PeerConnect? && queue[n].peer.id == b then [queue[n]] else []) + Orders(queue[n + 1..], b)
  {
    assert queue[n..] == [queue[n]] + queue[n + 1..];
    OrdersAppend([queue[n]], queue[n + 1..], b);
    assert [queue[n]][..0] == [];
  }

  /** Some dials of a member, each after an order of its own and in the joiner's name. */
  ghost predicate Ordered(dials: seq<Dial>, orders: seq<AuthorityMessage>, self: MemberId) {
    && |dials| <= |orders|
    && forall d | d in dials ::
         d.DialPeer? && d.local.id == self && PeerConnect(d.peer, d.ticket, true) in orders
  }

  lemma SomebodyWasOrdered(dials: seq<Dial>, orders: seq<AuthorityMessage>, self: MemberId)
    requires Ordered(dials, orders, self) && dials != []
    ensures exists m :: m in orders && m.PeerConnect? && m.dial
  {
    var d := dials[0];
    assert d in dials;
    assert PeerConnect(d.peer, d.ticket, true).dial;
  }

  lemma OrderedNext(m: AuthorityMessage, dials: seq<Dial>, orders: seq<AuthorityMessage>, v: Replica.View,
                    self: MemberId, b: MemberId)
    requires Ordered(dials, orders, self)
    requires m.PeerConnect? && m.dial ==> Knows(v, self) && (v.self == Some(self))
    ensures Ordered(DialsTo(Dialled(v, m), b) + dials,
                    (if m.PeerConnect? && m.peer.id == b then [m] else []) + orders, self)
  {
    WhenAJoinerDials(v, m);
    var own := DialsTo(Dialled(v, m), b);
    assert [DialFor(v, m)][1..] == [];
    assert own == if DialFor(v, m).DialPeer? && m.peer.id == b then [DialFor(v, m)] else [];
  }

  lemma OrderFindsItself(v: Replica.View, queue: seq<AuthorityMessage>, n: nat, k: nat, p: MemberId)
    requires GreetedAt(queue, p, k) && KnowsByNow(v, n, k, p) && n < |queue|
    ensures queue[n].PeerConnect? && queue[n].dial ==> v.self == Some(p) && Knows(v, p) && queue[n].peer.id != p
  {
  }

  lemma {:induction false} DialsFollowOrders(v: Replica.View, queue: seq<AuthorityMessage>, n: nat, k: nat,
                                             schedule: seq<Arrival>, p: MemberId, b: MemberId)
    requires GreetedAt(queue, p, k) && KnowsByNow(v, n, k, p) && n <= |queue|
    requires forall i | 0 <= i < |schedule| && schedule[i].FromPeerLink? :: SparesMember(schedule[i].event, p)
    ensures Ordered(DialsTo(DialsAlong(v, queue, n, schedule), b), Orders(queue[n..], b), p)
    decreases schedule
  {
    if schedule != [] {
      var rest := schedule[1..];
      assert forall i | 0 <= i < |rest| :: rest[i] == schedule[i + 1];
      if !schedule[0].FromAuthority? {
        ArrivalKeeps(v, schedule[0], n, k, p);
        DialsFollowOrders(Arrived(v, schedule[0]).view, queue, n, k, rest, p, b);
      } else if n >= |queue| {
        DialsFollowOrders(v, queue, n, k, rest, p, b);
      } else {
        var r := Received(v, queue[n]);
        MessageKeeps(v, queue, n, k, p);
        OrderFindsItself(v, queue, n, k, p);
        OrdersNext(queue, n, b);
        DialsFollowOrders(r.view, queue, n + 1, k, rest, p, b);
        var later := if r.stopped then [] else DialsAlong(r.view, queue, n + 1, rest);
        DialsToAppend(Dialled(v, queue[n]), later, b);
        OrderedNext(queue[n], DialsTo(later, b), Orders(queue[n + 1..], b), v, p, b);
      }
    }
  }

  // ----- orders that are carried out -----

  /** The session lasts along the schedule. */
  ghost predicate Lasts(v: Replica.View, queue: seq<AuthorityMessage>, n: nat, schedule: seq<Arrival>)
    decreases schedule
  {
    if schedule == [] then true
    else if !schedule[0].FromAuthority? then
      var r := Arrived(v, schedule[0]);
      !r.stopped && Lasts(r.view, queue, n, schedule[1..])
    else if n >= |queue| then Lasts(v, queue, n, schedule[1..])
    else
      var r := Received(v, queue[n]);
      !r.stopped && Lasts(r.view, queue, n + 1, schedule[1..])
  }

  /** How often a schedule turns to the authority link. */
  function Reads(schedule: seq<Arrival>): nat {
    if schedule == [] then 0 else (if schedule[0].FromAuthority? then 1 else 0) + Reads(schedule[1..])
  }

  lemma HandlingAddsNoLink(v: Replica.View, event: Event)
    ensures FileFinalisation.Handle(v, FileFinalisation.Delivered(event)).view.links <= v.links
  {
    assert Replica.ApplyEvent(v, event).links <= v.links;
  }

  lemma ArrivalLinksNot(v: Replica.View, a: Arrival, b: MemberId)
    requires !a.FromAuthority? && b !in v.links && (a.LinkUp? ==> a.member.id != b)
    ensures b !in Arrived(v, a).view.links
  {
    if a.FromPeerLink? {
      HandlingAddsNoLink(v, a.event);
    }
  }

  lemma MessageLinksNot(v: Replica.View, m: AuthorityMessage, b: MemberId)
    requires b !in v.links
    ensures b !in Received(v, m).view.links
  {
    if m.Told? {
      HandlingAddsNoLink(v, m.event);
    }
  }

  lemma OrderIsCarriedOut(v: Replica.View, m: AuthorityMessage, p: MemberId, b: MemberId)
    requires m.PeerConnect? && m.dial ==> v.self == Some(p) && Knows(v, p) && m.peer.id != p
    requires m.PeerConnect? && m.peer.id == b ==> m.dial && b !in v.links
    ensures |DialsTo(Dialled(v, m), b)| == |if m.PeerConnect? && m.peer.id == b then [m] else []|
  {
    WhenAJoinerDials(v, m);
  }

  /** A schedule that reads a message next, in a session that lasts. */
  lemma {:induction false} ReadDials(v: Replica.View, queue: seq<AuthorityMessage>, n: nat, schedule: seq<Arrival>,
                                     b: MemberId)
    requires schedule != [] && schedule[0].FromAuthority? && n < |queue| && Lasts(v, queue, n, schedule)
    ensures var after, rest := Received(v, queue[n]).view, schedule[1..];
            && Lasts(after, queue, n + 1, rest) && Reads(schedule) == 1 + Reads(rest)
            && DialsTo(DialsAlong(v, queue, n, schedule), b)
                 == DialsTo(Dialled(v, queue[n]), b) + DialsTo(DialsAlong(after, queue, n + 1, rest), b)
  {
    DialsToAppend(Dialled(v, queue[n]), DialsAlong(Received(v, queue[n]).view, queue, n + 1, schedule[1..]), b);
  }

  lemma {:induction false} OrdersAreCarriedOut(v: Replica.View, queue: seq<AuthorityMessage>, n: nat, k: nat,
                                               schedule: seq<Arrival>, p: MemberId, b: MemberId)
    requires GreetedAt(queue, p, k) && KnowsByNow(v, n, k, p) && n <= |queue|
    requires forall i | 0 <= i < |schedule| && schedule[i].FromPeerLink? :: SparesMember(schedule[i].event, p)
    requires Lasts(v, queue, n, schedule) && n + Reads(schedule) >= |queue|
    requires b !in v.links && forall i | 0 <= i < |schedule| && schedule[i].LinkUp? :: schedule[i].member.id != b
    requires forall m | m in Orders(queue[n..], b) :: m.PeerConnect? && m.dial
    ensures |DialsTo(DialsAlong(v, queue, n, schedule), b)| == |Orders(queue[n..], b)|
    decreases schedule
  {
    if schedule == [] {
      assert queue[n..] == [];
    } else {
      var rest := schedule[1..];
      assert forall i | 0 <= i < |rest| :: rest[i] == schedule[i + 1];
      if !schedule[0].FromAuthority? {
        ArrivalKeeps(v, schedule[0], n, k, p);
        ArrivalLinksNot(v, schedule[0], b);
        OrdersAreCarriedOut(Arrived(v, schedule[0]).view, queue, n, k, rest, p, b);
      } else if n >= |queue| {
        OrdersAreCarriedOut(v, queue, n, k, rest, p, b);
      } else {
        NextIsCarriedOut(v, queue, n, k, p, b);
        ReadDials(v, queue, n, schedule, b);
        OrdersAreCarriedOut(Received(v, queue[n]).view, queue, n + 1, k, rest, p, b);
      }
    }
  }

  lemma {:induction false} NextIsCarriedOut(v: Replica.View, queue: seq<AuthorityMessage>, n: nat, k: nat,
                                            p: MemberId, b: MemberId)
    requires GreetedAt(queue, p, k) && KnowsByNow(v, n, k, p) && n < |queue| && b !in v.links
    requires forall m | m in Orders(queue[n..], b) :: m.PeerConnect? && m.dial
    ensures KnowsByNow(Received(v, queue[n]).view, n + 1, k, p) && b !in Received(v, queue[n]).view.links
    ensures forall m | m in Orders(queue[n + 1..], b) :: m.PeerConnect? && m.dial
    ensures |Orders(queue[n..], b)| == |DialsTo(Dialled(v, queue[n]), b)| + |Orders(queue[n + 1..], b)|
  {
    MessageKeeps(v, queue, n, k, p);
    MessageLinksNot(v, queue[n], b);
    OrderFindsItself(v, queue, n, k, p);
    OrdersNext(queue, n, b);
    var own := if queue[n].PeerConnect? && queue[n].peer.id == b then [queue[n]] else [];
    assert forall m | m in own :: m in Orders(queue[n..], b);
    OrderIsCarriedOut(v, queue[n], p, b);
  }

  // ----- over the host's runs -----

  /** What two joiners of a run are to each other. */
  lemma {:induction false} JoinersOfARun(room: Room, inputs: seq<Input>, a: MemberId, b: MemberId) returns (k: nat)
    requires Good(room) && room.members.Keys == {room.host} && Run(room, inputs).Success?
    requires var peers := Run(room, inputs).value.host.peers; a in peers && b in peers && a != b
    ensures var h := Run(room, inputs).value.host;
            && b in h.room.members && h.peers[b].ticket.Some? && GreetedAt(h.peers[a].authority, a, k)
            && Orders(h.peers[a].authority, b)
                 == [PeerConnect(h.room.members[b], h.peers[b].ticket.value, Older(a, b))]
  {
    RunKeepsInv(room, inputs);
    EveryPairIsIntroduced(room, inputs, a, b);
    var h := Run(room, inputs).value.host;
    assert GoodPeer(h.room, a, h.peers[a]);
    k :| GreetedAt(h.peers[a].authority, a, k);
  }

  /**
    After any run of the host and along any schedule of a joiner: it dials another joiner only if it is the older of the
    two, at most once, under its own name, and with the other's ticket. So of two joiners never both dial.
  */
  lemma {:induction false} OnlyTheOlderDials(room: Room, inputs: seq<Input>, a: MemberId, b: MemberId,
                                             hostTicket: Option<string>, schedule: seq<Arrival>)
    requires Good(room) && room.members.Keys == {room.host} && Run(room, inputs).Success?
    requires var peers := Run(room, inputs).value.host.peers; a in peers && b in peers && a != b
    requires forall i | 0 <= i < |schedule| && schedule[i].FromPeerLink? :: SparesMember(schedule[i].event, a)
    ensures var h := Run(room, inputs).value.host;
            var dials := DialsTo(DialsAlong(Replica.Blank(hostTicket), h.peers[a].authority, 0, schedule), b);
            && b in h.room.members && h.peers[b].ticket.Some?
            && |dials| <= (if Older(a, b) then 1 else 0)
            && forall d | d in dials ::
                 && d.DialPeer? && d.local.id == a
                 && d.peer == h.room.members[b] && d.ticket == h.peers[b].ticket.value
  {
    var k := JoinersOfARun(room, inputs, a, b);
    var queue := Run(room, inputs).value.host.peers[a].authority;
    assert queue[0..] == queue;
    DialsFollowOrders(Replica.Blank(hostTicket), queue, 0, k, schedule, a, b);
    var dials := DialsTo(DialsAlong(Replica.Blank(hostTicket), queue, 0, schedule), b);
    if dials != [] {
      SomebodyWasOrdered(dials, Orders(queue, b), a);
    }
  }

  /**
    And the older does dial, once: whenever it gets to read its whole authority link before its session ends, and the
    two are not linked meanwhile.
  */
  lemma {:induction false} TheOlderDials(room: Room, inputs: seq<Input>, a: MemberId, b: MemberId,
                                         hostTicket: Option<string>, schedule: seq<Arrival>)
    requires Good(room) && room.members.Keys == {room.host} && Run(room, inputs).Success?
    requires var peers := Run(room, inputs).value.host.peers; a in peers && b in peers && a != b
    requires forall i | 0 <= i < |schedule| && schedule[i].FromPeerLink? :: SparesMember(schedule[i].event, a)
    requires forall i | 0 <= i < |schedule| && schedule[i].LinkUp? :: schedule[i].member.id != b
    requires var queue := Run(room, inputs).value.host.peers[a].authority;
             Lasts(Replica.Blank(hostTicket), queue, 0, schedule) && Reads(schedule) >= |queue|
    ensures var queue := Run(room, inputs).value.host.peers[a].authority;
            |DialsTo(DialsAlong(Replica.Blank(hostTicket), queue, 0, schedule), b)| == if Older(a, b) then 1 else 0
  {
    var k := JoinersOfARun(room, inputs, a, b);
    var queue := Run(room, inputs).value.host.peers[a].authority;
    assert queue[0..] == queue;
    if Older(a, b) {
      OrdersAreCarriedOut(Replica.Blank(hostTicket), queue, 0, k, schedule, a, b);
    } else {
      OnlyTheOlderDials(room, inputs, a, b, hostTicket, schedule);
    }
  }
}
