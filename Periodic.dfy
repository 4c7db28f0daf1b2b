/**
 * The periodic poster: `on_ready` arms a repeating task when both the
 * channel id and the sticker id are configured (non-zero) and the task is
 * not already running; each tick resolves the channel (cache first, then a
 * remote fetch) and posts the sticker there.
 *
 * The timer itself is not modelled: a `PeriodicTask` records only whether
 * the task is running, and `Fire` is one tick of a running task.
 */
module Periodic {
  import opened Wrappers
  import opened Rest

  /** `PERIODIC_CHANNEL_ID` and `PERIODIC_STICKER_ID` (zero means unset), and whether
      `change_interval(hours=PERIODIC_EVERY_HOURS)` accepts the interval: discord.py raises
      `ValueError` for a negative one. */
  datatype Config = Config(channelId: int, stickerId: int, intervalAccepted: bool)

  /** Python truthiness of both ids: the feature is on only when neither is zero. */
  predicate Enabled(c: Config) {
    c.channelId != 0 && c.stickerId != 0
  }

  /** Outcome of `client.fetch_channel`: a channel, or a `DiscordException`. */
  datatype FetchOutcome = Fetched(channel: Channel) | FetchFailed

  /** `get_channel_or_fetch`: the cached channel if there is one, otherwise the fetched one. */
  function ChannelOrFetch(cached: Option<Channel>, fetched: FetchOutcome): (r: Option<Channel>)
    ensures cached.Some? ==> r == cached
    ensures cached.None? ==> (r.Some? <==> fetched.Fetched?)
    ensures cached.None? && r.Some? ==> r.value == fetched.channel
  {
    if cached.Some? then cached
    else match fetched
      case Fetched(ch) => Some(ch)
      case FetchFailed => None
  }

  datatype TickResult =
    | Disabled              // early return: an id is zero
    | NoChannel             // early return: the channel could not be resolved
    | Attempted(send: SendResult)

  /** The body of `periodic_sticker_sender`, for a given cache state, fetch outcome and post response. */
  function Tick(c: Config, cached: Option<Channel>, fetched: FetchOutcome, response: Response): (r: TickResult)
    ensures r.Disabled? <==> !Enabled(c)
    ensures r.NoChannel? <==> Enabled(c) && cached.None? && fetched.FetchFailed?
    ensures r.Attempted? && r.send.request.Some? ==> r.send.request.value.stickerIds == [c.stickerId]
    ensures r.Attempted? && r.send.request.Some? ==>
      ChannelOrFetch(cached, fetched).value.id == Some(r.send.request.value.channelId)
    ensures r.Attempted? <==> Enabled(c) && ChannelOrFetch(cached, fetched).Some?
    ensures r.Attempted? ==> r.send == SendSticker(ChannelOrFetch(cached, fetched).value, c.stickerId, response)
    ensures r.Attempted? ==> (r.send.request.Some? <==> ChannelOrFetch(cached, fetched).value.id.Some?)
    ensures r.Attempted? && r.send.request.Some? && response.HttpStatus? ==> (r.send.ok <==> response.code < 400)
    ensures r.Attempted? && r.send.ok ==> response.HttpStatus? && response.code < 400
  {
    if !Enabled(c) then Disabled
    else
      match ChannelOrFetch(cached, fetched)
      case None => NoChannel
      case Some(ch) => Attempted(SendSticker(ch, c.stickerId, response))
  }

  /** When the cache and the fetch answer for the channel asked about (bot.py:147 asks for
      `PERIODIC_CHANNEL_ID`), an enabled tick that resolves a channel posts to the configured channel. */
  lemma TickPostsToConfiguredChannel(c: Config, cached: Option<Channel>, fetched: FetchOutcome, response: Response)
    requires Enabled(c)
    requires cached.Some? ==> cached.value.id == Some(c.channelId)
    requires fetched.Fetched? ==> fetched.channel.id == Some(c.channelId)
    requires cached.Some? || fetched.Fetched?
    ensures Tick(c, cached, fetched, response).Attempted?
    ensures Tick(c, cached, fetched, response).send.request == Some(CreateMessage(c.channelId, [c.stickerId]))
  {
  }

  class PeriodicTask {
    const config: Config
    /** `periodic_sticker_sender.is_running()`. */
    var running: bool
    /** How many times the task has been started. */
    ghost var starts: nat

    /** Only an enabled task with an accepted interval runs, and a running task was started exactly once. */
    ghost predicate Valid()
      reads this
    {
      (running ==> Enabled(config) && config.intervalAccepted) && starts == (if running then 1 else 0)
    }

    constructor (config: Config)
      ensures Valid() && this.config == config && !running
    {
      this.config := config;
      running := false;
      starts := 0;
    }

    /** The arming logic of `on_ready`; `raised` is the `ValueError` of `change_interval`,
        which leaves the handler before `start()`. */
    method OnReady() returns (started: bool, raised: bool)
      requires Valid()
      modifies this
      ensures Valid()
      ensures raised <==> !old(running) && Enabled(config) && !config.intervalAccepted
      ensures started <==> !old(running) && Enabled(config) && config.intervalAccepted
      ensures running <==> old(running) || (Enabled(config) && config.intervalAccepted)
      ensures starts == old(starts) + (if started then 1 else 0)
    {
      started, raised := false, false;
      if config.channelId != 0 && config.stickerId != 0 {
        if !running {
          if !config.intervalAccepted {
            raised := true;
            return;
          }
          running := true;
          starts := starts + 1;
          started := true;
        }
      }
    }

    /** One tick of the running task. A tick changes nothing, so later ticks still fire. */
    method Fire(cached: Option<Channel>, fetched: FetchOutcome, response: Response) returns (r: TickResult)
      requires Valid() && running
      ensures r == Tick(config, cached, fetched, response)
      ensures !r.Disabled?
    {
      r := Tick(config, cached, fetched, response);
    }
  }

  /** `on_ready` delivered twice: the second delivery does not start the task again. */
  method ReadyTwice(c: Config) returns (first: bool, second: bool)
    ensures first <==> Enabled(c) && c.intervalAccepted
    ensures !second
  {
    var task := new PeriodicTask(c);
    var raised;
    first, raised := task.OnReady();
    second, raised := task.OnReady();
  }

  /** A tick whose channel fetch fails sends nothing, and leaves the task running: the next tick still sends. */
  method FetchFailureThenTick(c: Config, ch: int, code: int) returns (first: TickResult, second: TickResult)
    requires Enabled(c) && c.intervalAccepted
    ensures first == NoChannel
    ensures second.Attempted? && second.send.request == Some(CreateMessage(ch, [c.stickerId]))
    ensures second.send.ok <==> code < 400
  {
    var task := new PeriodicTask(c);
    var started, raised := task.OnReady();
    first := task.Fire(None, FetchFailed, HttpStatus(code));
    second := task.Fire(Some(Channel(Some(ch))), FetchFailed, HttpStatus(code));
  }
}
