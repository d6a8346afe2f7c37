/** The machine protocol: the commands a member issues, the events the room emits, and their validation. */
module RoomProtocol {
  import opened Wrappers
  import opened Text

  type MemberId = string
  type ChannelId = string

  datatype Member = Member(id: MemberId, name: string, fingerprint: Option<string>)

  datatype Route = All | To(member: MemberId)

  datatype ChannelKind = Machine | File | Clipboard | Pipe

  datatype ItemKind = SingleFile | Folder

  datatype Digest = Digest(algorithm: string, value: string)

  datatype TransferOffer = TransferOffer(itemKind: ItemKind, integrity: Option<Digest>)

  datatype Command =
    | SendChat(to: Route, text: string)
    | OpenChannel(channel: ChannelId, kind: ChannelKind, to: Route, name: Option<string>,
                  size: Option<nat>, mime: Option<string>, transfer: Option<TransferOffer>)
    | UpdateChannelTransfer(channel: ChannelId, size: Option<nat>, offer: TransferOffer)
    | AcceptChannel(channel: ChannelId)
    | RejectChannel(channel: ChannelId, reason: Option<string>)
    | SendChannelData(channel: ChannelId, body: string)
    | CloseChannel(channel: ChannelId, reason: Option<string>)

  datatype Event =
    | RoomWelcome(roomId: string, self: MemberId, host: MemberId)
    | MemberSnapshot(members: seq<Member>)
    | MemberJoined(joined: Member)
    | MemberLeft(member: MemberId, reason: Option<string>)
    | RoomClosed(closeReason: string)
    | ChatReceived(from: MemberId, fromName: string, to: Route, text: string)
    | ChannelOpened(channel: ChannelId, kind: ChannelKind, from: MemberId, fromName: string, to: Route,
                    name: Option<string>, size: Option<nat>, mime: Option<string>, transfer: Option<TransferOffer>)
    | ChannelAccepted(channel: ChannelId, member: MemberId, memberName: string)
    | ChannelTransferReady(channel: ChannelId, size: Option<nat>, offer: TransferOffer)
    | ChannelTransferFinalized(channel: ChannelId, size: Option<nat>, offer: TransferOffer)
    | ChannelRejected(channel: ChannelId, member: MemberId, memberName: string, reason: Option<string>)
    | ChannelData(channel: ChannelId, from: MemberId, fromName: string, body: string)
    | ChannelClosed(channel: ChannelId, member: MemberId, memberName: string, reason: Option<string>)
    | ChannelPathReceived(channel: ChannelId, path: string, bytes: nat)
    | CommandFailed(failedChannel: Option<ChannelId>)

  datatype ProtocolError =
    | EmptyIdentifier | EmptyChatMessage | EmptyChannelData | EmptyMemberSnapshot
    | MissingTransferOffer | UnexpectedTransferOffer

  datatype Validity = Valid | Invalid(error: ProtocolError)

  function Require(condition: bool, error: ProtocolError): Validity {
    if condition then Valid else Invalid(error)
  }

  /** The first failed check, as `?` chaining reports it. */
  function Then(first: Validity, second: Validity): Validity {
    if first.Valid? then second else first
  }

  function Named(id: string): Validity {
    Require(!Blank(id), EmptyIdentifier)
  }

  function ValidRoute(to: Route): Validity {
    match to
    case All => Valid
    case To(member) => Named(member)
  }

  function ValidMember(m: Member): Validity {
    Then(Named(m.id), Named(m.name))
  }

  function ValidOffer(offer: TransferOffer): Validity {
    match offer.integrity
    case None => Valid
    case Some(digest) => Then(Named(digest.algorithm), Named(digest.value))
  }

  /** Transfer metadata is required on file channels and refused on every other kind. */
  function ValidChannelTransfer(kind: ChannelKind, transfer: Option<TransferOffer>): Validity {
    if kind == File then
      if transfer.None? then Invalid(MissingTransferOffer) else ValidOffer(transfer.value)
    else
      Require(transfer.None?, UnexpectedTransferOffer)
  }

  function ValidCommand(c: Command): Validity {
    match c
    case SendChat(to, text) => Then(ValidRoute(to), Require(!Blank(text), EmptyChatMessage))
    case OpenChannel(channel, kind, to, _, _, _, transfer) =>
      Then(Named(channel), Then(ValidRoute(to), ValidChannelTransfer(kind, transfer)))
    case UpdateChannelTransfer(channel, _, offer) => Then(Named(channel), ValidOffer(offer))
    case SendChannelData(channel, body) => Then(Named(channel), Require(body != "", EmptyChannelData))
    case AcceptChannel(channel) => Named(channel)
    case RejectChannel(channel, _) => Named(channel)
    case CloseChannel(channel, _) => Named(channel)
  }

  /** Validation of the events that the room engine constructs. */
  function ValidEvent(e: Event): Validity {
    match e
    case ChatReceived(from, fromName, to, text) =>
      Then(Named(from), Then(Named(fromName), Then(ValidRoute(to), Require(!Blank(text), EmptyChatMessage))))
    case ChannelOpened(channel, kind, from, fromName, to, _, _, _, transfer) =>
      Then(Named(channel), Then(Named(from), Then(Named(fromName),
        Then(ValidRoute(to), ValidChannelTransfer(kind, transfer)))))
    case ChannelAccepted(channel, member, memberName) => Then(Named(channel), Then(Named(member), Named(memberName)))
    case ChannelRejected(channel, member, memberName, _) => Then(Named(channel), Then(Named(member), Named(memberName)))
    case ChannelClosed(channel, member, memberName, _) => Then(Named(channel), Then(Named(member), Named(memberName)))
    case ChannelTransferReady(channel, _, offer) => Then(Named(channel), ValidOffer(offer))
    case ChannelTransferFinalized(channel, _, offer) => Then(Named(channel), ValidOffer(offer))
    case ChannelData(channel, from, fromName, body) =>
      Then(Named(channel), Then(Named(from), Then(Named(fromName), Require(body != "", EmptyChannelData))))
    case _ => Valid
  }

  /** The update event announced for an offer: a digest for a single file, readiness for a folder. */
  function UpdateEvent(channel: ChannelId, size: Option<nat>, offer: TransferOffer): Event {
    if offer.itemKind == SingleFile
    then ChannelTransferFinalized(channel, size, offer)
    else ChannelTransferReady(channel, size, offer)
  }
}
