/**
 * The message filter (`on_message`): a chain of guards deciding whether a
 * message is acted on, and the effects of acting: delete the message, then,
 * unless the delete was refused for lack of permission, post the
 * replacement sticker to the same channel.
 *
 * `Decide` is the guard chain as a pure function of the policy and the
 * message. `OnMessage` is the whole handler, given the outcome of the delete
 * call and the response of the post, as the trace of effects it produces and
 * the way it ends.
 */
module Filter {
  import opened Wrappers
  import opened UserIds
  import opened Stickers
  import opened Rest

  const BannedStickerIds: set<int> := {1461152152243142756, 1461253269824471141}
  const ReplacementStickerId: int := 1461235460943642656
  const AllowedChannelIds: set<int> := {}

  /** The moderation policy, fixed at startup. */
  datatype Policy = Policy(
    banned: set<int>,
    replacement: int,
    targetUsers: set<int>,
    allowedChannels: set<int>)

  /** The policy the script runs with, given the raw `TARGET_USER_IDS` value. */
  function SourcePolicy(targetUserIdsRaw: string): (p: Policy)
    ensures p.banned == {1461152152243142756, 1461253269824471141}
    ensures p.replacement == 1461235460943642656 && p.replacement !in p.banned
    ensures p.allowedChannels == {}
    ensures p.targetUsers == TargetUserIds(targetUserIdsRaw)
  {
    Policy(BannedStickerIds, ReplacementStickerId, TargetUserIds(targetUserIdsRaw), AllowedChannelIds)
  }

  /** What the handler reads of an inbound message. */
  datatype Message = Message(
    authorIsBot: bool,
    authorId: int,
    inGuild: bool,
    channelId: int,
    stickerItems: Option<seq<StickerRecord>>,
    stickers: Option<seq<StickerRecord>>)

  /** Which guard returned early. */
  datatype IgnoreReason =
    | BotAuthor | DirectMessage | ChannelNotAllowed | NotTargetUser | NoStickers | NoBannedSticker

  datatype Decision =
    | Ignore(reason: IgnoreReason)
    | DeleteAndReplace(channelId: int, replacement: int)

  /** Reference statement of when the filter acts, independent of the guard order. */
  predicate Moderated(p: Policy, m: Message) {
    && !m.authorIsBot
    && m.inGuild
    && (p.allowedChannels == {} || m.channelId in p.allowedChannels)
    && m.authorId in p.targetUsers
    && exists x :: x in MessageStickerIds(m.stickerItems, m.stickers) && x in p.banned
  }

  lemma SharedElement(a: set<int>, b: set<int>)
    requires a * b != {}
    ensures exists x :: x in a && x in b
  {
    if forall x :: x in a ==> x !in b {
      assert false;
    }
  }

  /** The guards of `on_message`, in the source's order. */
  function Decide(p: Policy, m: Message): (d: Decision)
    ensures d.DeleteAndReplace? <==> Moderated(p, m)
    ensures d.DeleteAndReplace? ==> d == DeleteAndReplace(m.channelId, p.replacement)
  {
    if m.authorIsBot then Ignore(BotAuthor)
    else if !m.inGuild then Ignore(DirectMessage)
    else if p.allowedChannels != {} && m.channelId !in p.allowedChannels then Ignore(ChannelNotAllowed)
    else if m.authorId !in p.targetUsers then Ignore(NotTargetUser)
    else
      var ids := MessageStickerIds(m.stickerItems, m.stickers);
      if ids == {} then Ignore(NoStickers)
      else if ids * p.banned == {} then Ignore(NoBannedSticker)
      else
        SharedElement(ids, p.banned);
        DeleteAndReplace(m.channelId, p.replacement)
  }

  /** Outcome of `message.delete()`: success, `discord.Forbidden`, or any other exception. */
  datatype DeleteOutcome = Deleted | Forbidden | DeleteError

  datatype Effect = DeleteMessage | Post(request: Request)

  /** How the handler finished. */
  datatype End =
    | Ignored(reason: IgnoreReason)
    | DeleteForbidden   // caught, logged, handler returns
    | DeleteRaised      // not caught: the exception leaves the handler
    | Replaced
    | ReplaceFailed     // caught and logged

  datatype Run = Run(effects: seq<Effect>, end: End)

  predicate Posts(effects: seq<Effect>) {
    exists k :: 0 <= k < |effects| && effects[k].Post?
  }

  /** The whole of `on_message` for one message, one delete outcome and one post response. */
  function OnMessage(p: Policy, m: Message, deletion: DeleteOutcome, response: Response): (r: Run)
    ensures |r.effects| <= 2
    ensures r.effects == [] <==> !Moderated(p, m)
    ensures r.effects != [] ==> r.effects[0] == DeleteMessage
    ensures forall k :: 0 <= k < |r.effects| && r.effects[k].Post? ==>
      k == 1 && r.effects[k].request == CreateMessage(m.channelId, [p.replacement])
    ensures Posts(r.effects) <==> Moderated(p, m) && deletion.Deleted?
    ensures r.end.Replaced? <==> Moderated(p, m) && deletion.Deleted? && response.HttpStatus? && response.code < 400
    ensures r.end.DeleteRaised? <==> Moderated(p, m) && deletion.DeleteError?
    ensures Moderated(p, m) && !deletion.Deleted? ==> r.effects == [DeleteMessage]
  {
    match Decide(p, m)
    case Ignore(why) => Run([], Ignored(why))
    case DeleteAndReplace(ch, sticker) =>
      match deletion
      case Forbidden => Run([DeleteMessage], DeleteForbidden)
      case DeleteError => Run([DeleteMessage], DeleteRaised)
      case Deleted =>
        var sent := SendSticker(Channel(Some(ch)), sticker, response);
        var post := [Post(sent.request.value)];
        assert ([DeleteMessage] + post)[1].Post?;
        Run([DeleteMessage] + post, if sent.ok then Replaced else ReplaceFailed)
  }

  // ---------------------------------------------------------------------
  // Guards
  // ---------------------------------------------------------------------

  /** A bot's message or a direct message is never acted on, whatever else it carries. */
  lemma BotAndDirectMessageIgnored(p: Policy, m: Message, deletion: DeleteOutcome, response: Response)
    requires m.authorIsBot || !m.inGuild
    ensures OnMessage(p, m, deletion, response).effects == []
    ensures Decide(p, m) == Ignore(if m.authorIsBot then BotAuthor else DirectMessage)
  {
  }

  /** With a non-empty allow-list, a message from another channel is never acted on. */
  lemma ChannelGuard(p: Policy, m: Message, deletion: DeleteOutcome, response: Response)
    requires p.allowedChannels != {} && m.channelId !in p.allowedChannels
    ensures OnMessage(p, m, deletion, response).effects == []
  {
  }

  /** A message whose author is not monitored is never acted on. */
  lemma UserGuard(p: Policy, m: Message, deletion: DeleteOutcome, response: Response)
    requires m.authorId !in p.targetUsers
    ensures OnMessage(p, m, deletion, response).effects == []
  {
  }

  /** An empty monitored set means no message is ever acted on (not "all users"). */
  lemma EmptyTargetsNeverAct(m: Message, deletion: DeleteOutcome, response: Response)
    ensures OnMessage(SourcePolicy(""), m, deletion, response).effects == []
  {
    EmptyInput();
  }

  /** A message without stickers, or with none from the banned set, is never acted on. */
  lemma NoBannedStickerNeverActs(p: Policy, m: Message, deletion: DeleteOutcome, response: Response)
    requires MessageStickerIds(m.stickerItems, m.stickers) * p.banned == {}
    ensures OnMessage(p, m, deletion, response).effects == []
  {
  }

  /** The script's own policy has an empty allow-list: the channel never matters. */
  lemma SourcePolicyAllChannels(raw: string, m: Message, channelId: int)
    ensures Moderated(SourcePolicy(raw), m) <==> Moderated(SourcePolicy(raw), m.(channelId := channelId))
  {
  }

  // ---------------------------------------------------------------------
  // Effects
  // ---------------------------------------------------------------------

  /** A refused delete ends the handler: no post follows. */
  lemma ForbiddenDeleteNoPost(p: Policy, m: Message, response: Response)
    ensures !Posts(OnMessage(p, m, Forbidden, response).effects)
    ensures Moderated(p, m) ==> OnMessage(p, m, Forbidden, response) == Run([DeleteMessage], DeleteForbidden)
  {
  }

  /** A failed post is the last effect: the trace is the same as for a successful one. */
  lemma FailedPostNoRetry(p: Policy, m: Message, deletion: DeleteOutcome, response: Response, ok: int)
    requires ok < 400
    ensures OnMessage(p, m, deletion, response).effects == OnMessage(p, m, deletion, HttpStatus(ok)).effects
  {
  }

  /** The scenario of a banned sticker from a monitored user: one delete, then one post of the replacement. */
  lemma BannedStickerScenario(author: int, channelId: int, code: int)
    requires WithinDigitLimit(author)
    requires code < 400
    ensures
      var m := Message(false, author, true, channelId, Some([StickerRecord(Some(1461152152243142756))]), None);
      OnMessage(SourcePolicy(Show(author)), m, Deleted, HttpStatus(code))
        == Run([DeleteMessage, Post(CreateMessage(channelId, [1461235460943642656]))], Replaced)
  {
    ParseShow(author);
    SingleToken(Show(author));
    var m := Message(false, author, true, channelId, Some([StickerRecord(Some(1461152152243142756))]), None);
    assert 1461152152243142756 in MessageStickerIds(m.stickerItems, m.stickers);
  }
}
