/**
 * `send_sticker`: a REST "Create Message" request whose body carries the one
 * sticker id, judged by the HTTP status of its response. The transport is a
 * parameter: the response is either a status code or an exception raised
 * before one arrived.
 */
module Rest {
  import opened Wrappers

  /** A channel object; `id` is `None` when the object has no `id` attribute. */
  datatype Channel = Channel(id: Option<int>)

  /** The request: the channel in the endpoint path and the `sticker_ids` of the JSON body. */
  datatype Request = CreateMessage(channelId: int, stickerIds: seq<int>)

  /** What the HTTP exchange produced. */
  datatype Response = HttpStatus(code: int) | TransportError

  /** The request sent, if any, and whether `send_sticker` returned without raising. */
  datatype SendResult = SendResult(request: Option<Request>, ok: bool)

  function SendSticker(channel: Channel, stickerId: int, response: Response): (r: SendResult)
    ensures r.request.Some? <==> channel.id.Some?
    ensures r.request.Some? ==> r.request.value == CreateMessage(channel.id.value, [stickerId])
    ensures r.ok ==> r.request.Some?
    ensures channel.id.Some? && response.HttpStatus? ==> (r.ok <==> response.code < 400)
    ensures response.TransportError? ==> !r.ok
  {
    match channel.id
    case None => SendResult(None, false)
    case Some(id) =>
      SendResult(Some(CreateMessage(id, [stickerId])), response.HttpStatus? && !(response.code >= 400))
  }
}
