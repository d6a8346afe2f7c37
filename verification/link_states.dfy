/**
  When a joiner's peer link carries events: not before it is ready, and from then on at once, whatever else happens in
  the host's session.
*/
module LinkStates {
  import opened Wrappers
  import opened RoomProtocol
  import opened RoomAuthority
  import opened HostLinks
  import opened Mesh
  import FileReceive

  /** A link's state, and that what waits for it stays behind until it is ready. */
  ghost predicate Continues(before: PeerHandle, after: PeerHandle) {
    && after.ready == before.ready && after.broken == before.broken
    && (if before.ready then after.pending == before.pending && before.sent <= after.sent
        else after.sent == before.sent && before.pending <= after.pending)
  }

  lemma ContinuesOn(a: PeerHandle, b: PeerHandle, c: PeerHandle)
    requires Continues(a, b) && Continues(b, c)
    ensures Continues(a, c)
  {
  }

  lemma DeliveryContinues(peers: map<MemberId, PeerHandle>, routed: seq<Routed>, p: MemberId)
    requires p in peers
    ensures p in Delivered(peers, routed) && Continues(peers[p], Delivered(peers, routed)[p])
  {
  }

  lemma ComplaintContinues(peers: map<MemberId, PeerHandle>, actor: MemberId, command: Command, p: MemberId)
    requires p in peers
    ensures p in Complained(peers, actor, command) && Continues(peers[p], Complained(peers, actor, command)[p])
  {
  }

  lemma {:induction false} AnsweredContinues(h: Host, actor: MemberId, command: Command, out: Outcome,
                                             receipt: FileReceive.HostReceipt, p: MemberId)
    requires p in h.peers && out.Applied?
    ensures var after := Answered(h, actor, command, out, receipt);
            p in after.peers && Continues(h.peers[p], after.peers[p])
  {
    var told := Delivered(h.peers, Made(h.peers, Announced(out)));
    DeliveryContinues(h.peers, Made(h.peers, Announced(out)), p);
    ComplaintContinues(h.peers, actor, command, p);
    ComplaintContinues(told, actor, command, p);
    ContinuesOn(h.peers[p], told[p], Complained(told, actor, command)[p]);
  }

  lemma {:induction false} ObeyedContinues(h: Host, actor: MemberId, command: Command, p: MemberId)
    requires p in h.peers
    ensures var after := Obeyed(h, actor, command); p in after.peers && Continues(h.peers[p], after.peers[p])
  {
    var out := Execute(h.room, actor, command);
    if out.Applied? {
      ObeyedIsAnswered(h, actor, command);
      AnsweredContinues(h, actor, command, out, ServedBy(h, actor, command, out), p);
    } else {
      ComplaintContinues(h.peers, actor, command, p);
    }
  }

  /** A peer that was there before, or a newcomer whose link is not ready. */
  ghost predicate Follows(peers: map<MemberId, PeerHandle>, p: MemberId, after: PeerHandle) {
    if p in peers then Continues(peers[p], after) else !after.ready && !after.broken && after.sent == []
  }

  lemma {:induction false} AdmissionFollows(peers: map<MemberId, PeerHandle>, newcomer: PeerHandle, room: Room,
                                            p: MemberId)
    requires AllTicketed(peers) && newcomer.ticket.Some? && newcomer.member.id !in peers
    requires !newcomer.ready && !newcomer.broken && newcomer.sent == []
    requires p in Admitted(peers, newcomer, room)
    ensures Follows(peers, p, Admitted(peers, newcomer, room)[p])
  {
  }

  lemma {:induction false} AdmittedAndTold(peers: map<MemberId, PeerHandle>, newcomer: PeerHandle, room: Room,
                                           routed: seq<Routed>, p: MemberId)
    requires AllTicketed(peers) && newcomer.ticket.Some? && newcomer.member.id !in peers
    requires !newcomer.ready && !newcomer.broken && newcomer.sent == []
    requires p in Delivered(Admitted(peers, newcomer, room), routed)
    ensures Follows(peers, p, Delivered(Admitted(peers, newcomer, room), routed)[p])
  {
    var admitted := Admitted(peers, newcomer, room);
    AdmissionFollows(peers, newcomer, room, p);
    DeliveryContinues(admitted, routed, p);
    if p in peers {
      ContinuesOn(peers[p], admitted[p], Delivered(admitted, routed)[p]);
    }
  }

  lemma {:induction false} ConnectedFollows(h: Host, name: string, fingerprint: Option<string>,
                                            ticket: Option<string>, after: Host, p: MemberId)
    requires Good(h.room) && h.peers.Keys <= h.room.members.Keys
    requires Connected(h, name, fingerprint, ticket) == Success(after) && p in after.peers
    ensures Follows(h.peers, p, after.peers[p])
  {
    var newcomer, out := Newcomer(h, name, fingerprint, ticket), JoinRoom(h.room, name, fingerprint);
    ConnectedShape(h, name, fingerprint, ticket);
    FreshId(h.room);
    AdmittedAndTold(h.peers, newcomer, out.room, Announced(out), p);
  }

  lemma {:induction false} DepartedFollows(h: Host, member: MemberId, reason: Option<string>, p: MemberId)
    requires p in Departed(h, member, reason).peers
    ensures p in h.peers && p != member && Continues(h.peers[p], Departed(h, member, reason).peers[p])
  {
    DeliveryContinues(h.peers - {member}, Announced(LeaveRoom(h.room, member, reason)), p);
  }

  lemma {:induction false} PreparedFollows(h: Host, command: Command, p: MemberId)
    requires Prepared(h, command).Success? && p in Prepared(h, command).value.peers
    ensures p in h.peers && Continues(h.peers[p], Prepared(h, command).value.peers[p])
  {
    var out := Execute(h.room, h.room.host, command);
    if out.Applied? {
      DeliveryContinues(h.peers, Announced(out), p);
    }
  }

  /** What an input does to a link: only its own readiness and its own breaking change its state. */
  ghost predicate LinkFollows(h: Host, input: Input, p: MemberId, after: PeerHandle) {
    if input == LinkReady(p) && p in h.peers then
      && after.ready && !after.broken && after.pending == []
      && after.sent == h.peers[p].sent + h.peers[p].pending
    else if input == LinkBroken(p) && p in h.peers then after == h.peers[p].(broken := true)
    else Follows(h.peers, p, after)
  }

  lemma {:induction false} QuietFollows(h: Host, input: Input, p: MemberId)
    requires Quiet(input) && Step(h, input).Success? && p in Step(h, input).value.peers
    ensures LinkFollows(h, input, p, Step(h, input).value.peers[p])
  {
  }

  lemma {:induction false} CommandFollows(h: Host, input: Input, p: MemberId)
    requires input.Commanded? && Step(h, input).Success? && p in Step(h, input).value.peers
    ensures p in h.peers && Continues(h.peers[p], Step(h, input).value.peers[p])
  {
    ObeyedKeys(h, input.actor, input.command);
    ObeyedContinues(h, input.actor, input.command, p);
  }

  lemma {:induction false} StepFollows(h: Host, input: Input, p: MemberId)
    requires Good(h.room) && h.peers.Keys <= h.room.members.Keys
    requires Step(h, input).Success? && p in Step(h, input).value.peers
    ensures LinkFollows(h, input, p, Step(h, input).value.peers[p])
  {
    if Quiet(input) {
      QuietFollows(h, input, p);
    } else if input.Commanded? {
      CommandFollows(h, input, p);
    } else {
      if input.Connect? {
        ConnectShape(h, input);
        ConnectedFollows(h, input.name, input.fingerprint, input.ticket, Step(h, input).value, p);
      } else if input.Gone? {
        GoneShape(h, input);
        DepartedFollows(h, input.member, input.reason, p);
      } else {
        PreparedShape(h, input);
        PreparedFollows(h, PreparedCommand(input), p);
      }
    }
  }

  lemma {:induction false} ObeyedKeys(h: Host, actor: MemberId, command: Command)
    ensures Obeyed(h, actor, command).peers.Keys == h.peers.Keys
  {
    var out := Execute(h.room, actor, command);
    if out.Applied? {
      ObeyedIsAnswered(h, actor, command);
      AnsweredKeys(h, actor, command, out, ServedBy(h, actor, command, out));
    }
  }

  lemma AnsweredKeys(h: Host, actor: MemberId, command: Command, out: Outcome, receipt: FileReceive.HostReceipt)
    requires out.Applied?
    ensures Answered(h, actor, command, out, receipt).peers.Keys == h.peers.Keys
  {
  }

  // ----- over runs -----

  /** The peer is connected at the end of a run. */
  ghost predicate Present(room: Room, inputs: seq<Input>, p: MemberId) {
    Run(room, inputs).Success? && p in Run(room, inputs).value.host.peers
  }

  /** At some input of a run the link became ready, and the peer has stayed since. */
  ghost predicate BecameReady(room: Room, inputs: seq<Input>, p: MemberId) {
    && inputs != [] && Present(room, inputs, p)
    && var earlier := inputs[..|inputs| - 1];
       if inputs[|inputs| - 1] == LinkReady(p) then Present(room, earlier, p) else BecameReady(room, earlier, p)
  }

  lemma RunNext(room: Room, inputs: seq<Input>)
    requires inputs != [] && Run(room, inputs).Success?
    ensures var n := |inputs| - 1;
            && Run(room, inputs[..n]).Success?
            && Step(Run(room, inputs[..n]).value.host, inputs[n]) == Success(Run(room, inputs).value.host)
  {
  }

  /**
    After any run a joiner's link is ready if and only if it became so since the joiner came, and until then nothing is
    sent over it.
  */
  lemma {:induction false} WhenALinkIsReady(room: Room, inputs: seq<Input>, p: MemberId)
    requires Good(room) && room.members.Keys == {room.host} && Present(room, inputs, p)
    ensures var peer := Run(room, inputs).value.host.peers[p];
            && (peer.ready <==> BecameReady(room, inputs, p))
            && (!peer.ready ==> peer.sent == [])
  {
    if inputs != [] {
      var n := |inputs| - 1;
      RunNext(room, inputs);
      var before := Run(room, inputs[..n]).value;
      RunKeepsInv(room, inputs[..n]);
      StepFollows(before.host, inputs[n], p);
      if Present(room, inputs[..n], p) {
        WhenALinkIsReady(room, inputs[..n], p);
      }
    }
  }
}
