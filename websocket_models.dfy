/**
 * Self-describing envelopes. Every envelope carries its type tag in `t`; `Type()` is
 * the constant tag of its kind whatever the fields hold, and `SetType()` is a copy with
 * the tag stamped in. Values are immutable, so asking for `Type()` can never change the
 * caller's `t` (the source assigns to a copy of the receiver, to the same effect).
 */
module WebsocketModels {
  import opened DbModels

  datatype Author = Author(id: string, username: string)

  /** The envelopes' own user record; its fields are not part of this model. */
  datatype ModelUser = ModelUser(raw: string)

  datatype Channel = Channel(channelId: string, name: string, owner: ModelUser)

  datatype JSONModel =
    // identification
    | WhoAmI(t: string, id: string, username: string, nonce: string)
    | GenericError(t: string, nonce: string, error: string, message: string)
    // messages
    | MsgSend(t: string, message: string, nonce: string)
    | MsgBroadcast(t: string, nonce: string, messageId: string, author: Author, message: string, time: int)
    | MsgHistory(t: string, nonce: string, fromTime: int, toTime: int, messages: seq<Message>)
    // yodels
    | YodelCreate(t: string, name: string)
    | Yodel(t: string, yodelId: string, name: string, owner: string)
    | YodelGet(t: string, yodelId: string)
    // channels
    | ChannelCreate(t: string, name: string)
    | ChannelDelete(t: string, channelId: string)
    | ChannelGet(t: string, channelId: string, name: string, channelOwner: ModelUser)
    | ChannelLeave(t: string, channelId: string)
    | ChannelJoin(t: string, inviteId: string)
    | ChannelMembers(t: string, channelId: string, members: seq<ModelUser>)
    | ChannelSubscribe(t: string, channelId: string)
    | ChannelUnsubscribe(t: string, channelId: string)
    | ChannelSubscriptions(t: string, subscriptions: seq<Channel>)
    // invites
    | InviteCreate(t: string, channelId: string, validUntil: int, useLimit: int)
    | InviteGet(t: string, inviteId: string, channelId: string, validUntil: int, useLimit: int)
    | InviteDelete(t: string, inviteId: string)
  {
    /** The constant tag of this kind of envelope; reading it back gives the kind. */
    function Type(): (tag: string)
      ensures VariantOfTag(tag) == Variant()
    {
      match this
      case WhoAmI(_, _, _, _) => "whoami"
      case GenericError(_, _, _, _) => "error"
      case MsgSend(_, _, _) => "msg_send"
      case MsgBroadcast(_, _, _, _, _, _) => "msg_broadcast"
      case MsgHistory(_, _, _, _, _) => "msg_history"
      case YodelCreate(_, _) => "yodel_create"
      case Yodel(_, _, _, _) => "yodel"
      case YodelGet(_, _) => "yodel_get"
      case ChannelCreate(_, _) => "chnl_create"
      case ChannelDelete(_, _) => "chnl_delete"
      case ChannelGet(_, _, _, _) => "chnl_get"
      case ChannelLeave(_, _) => "chnl_leave"
      case ChannelJoin(_, _) => "chnl_join"
      case ChannelMembers(_, _, _) => "chnl_members"
      case ChannelSubscribe(_, _) => "chnl_subscribe"
      case ChannelUnsubscribe(_, _) => "chnl_unsubscribe"
      case ChannelSubscriptions(_, _) => "chnl_subscriptions"
      case InviteCreate(_, _, _, _) => "inv_create"
      case InviteGet(_, _, _, _, _) => "inv_get"
      case InviteDelete(_, _) => "inv_delete"
    }

    /** A copy with the tag stamped in and every other field as it was. */
    function SetType(): (r: JSONModel)
      ensures r.t == Type()
      ensures r.(t := t) == this
    {
      this.(t := Type())
    }

    /** Only the identification and message envelopes declare a nonce accessor. */
    predicate HasNonce()
    {
      WhoAmI? || GenericError? || MsgSend? || MsgBroadcast? || MsgHistory?
    }

    /** The request's nonce, which stamping the tag before writing leaves in place. */
    function GetNonce(): (n: string)
      requires HasNonce()
      ensures SetType().HasNonce() && SetType().nonce == n
    {
      nonce
    }

    /** Position of the kind in the declaration above. */
    function Variant(): nat
    {
      match this
      case WhoAmI(_, _, _, _) => 0
      case GenericError(_, _, _, _) => 1
      case MsgSend(_, _, _) => 2
      case MsgBroadcast(_, _, _, _, _, _) => 3
      case MsgHistory(_, _, _, _, _) => 4
      case YodelCreate(_, _) => 5
      case Yodel(_, _, _, _) => 6
      case YodelGet(_, _) => 7
      case ChannelCreate(_, _) => 8
      case ChannelDelete(_, _) => 9
      case ChannelGet(_, _, _, _) => 10
      case ChannelLeave(_, _) => 11
      case ChannelJoin(_, _) => 12
      case ChannelMembers(_, _, _) => 13
      case ChannelSubscribe(_, _) => 14
      case ChannelUnsubscribe(_, _) => 15
      case ChannelSubscriptions(_, _) => 16
      case InviteCreate(_, _, _, _) => 17
      case InviteGet(_, _, _, _, _) => 18
      case InviteDelete(_, _) => 19
    }

    predicate IsChannelEnvelope()
    {
      ChannelCreate? || ChannelDelete? || ChannelGet? || ChannelLeave? || ChannelJoin?
      || ChannelMembers? || ChannelSubscribe? || ChannelUnsubscribe? || ChannelSubscriptions?
    }
  }

  /** Reads the kind back from a tag: the inverse of `Type` on the twenty tags. */
  function VariantOfTag(tag: string): (v: int)
    ensures -1 <= v < 20
  {
    if tag == "whoami" then 0
    else if tag == "error" then 1
    else if tag == "msg_send" then 2
    else if tag == "msg_broadcast" then 3
    else if tag == "msg_history" then 4
    else if tag == "yodel_create" then 5
    else if tag == "yodel" then 6
    else if tag == "yodel_get" then 7
    else if tag == "chnl_create" then 8
    else if tag == "chnl_delete" then 9
    else if tag == "chnl_get" then 10
    else if tag == "chnl_leave" then 11
    else if tag == "chnl_join" then 12
    else if tag == "chnl_members" then 13
    else if tag == "chnl_subscribe" then 14
    else if tag == "chnl_unsubscribe" then 15
    else if tag == "chnl_subscriptions" then 16
    else if tag == "inv_create" then 17
    else if tag == "inv_get" then 18
    else if tag == "inv_delete" then 19
    else -1
  }

  /** The tag names the kind: reading it back gives the envelope's own kind. */
  lemma TagIdentifiesKind(x: JSONModel)
    ensures VariantOfTag(x.Type()) == x.Variant()
  {
  }

  /** The twenty tags are pairwise distinct: two envelopes share a tag exactly when they are of the same kind. */
  lemma TagsDistinct(x: JSONModel, y: JSONModel)
    ensures x.Type() == y.Type() <==> x.Variant() == y.Variant()
  {
  }

  /** Stamping twice is stamping once, and stamping does not change the tag or the nonce. */
  lemma SetTypeIdempotent(x: JSONModel)
    ensures x.SetType().SetType() == x.SetType()
    ensures x.SetType().Type() == x.Type()
    ensures x.HasNonce() ==> x.SetType().HasNonce() && x.SetType().GetNonce() == x.GetNonce()
  {
  }

  /** Every channel envelope's tag starts with "chnl_". */
  lemma ChannelTagsPrefix(x: JSONModel)
    requires x.IsChannelEnvelope()
    ensures "chnl_" <= x.Type()
  {
  }
}
