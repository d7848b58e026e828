/**
 * The bot's main loop (go/smsq/main.go `processTGUpdate` and the `select` in `main`): Telegram
 * updates, posted SMS requests and the ten-minute timer, handled one at a time on one
 * database. Every step keeps chat ids unique.
 */
module Server {
  import opened Basics
  import opened Database
  import opened Telegram
  import Subscription
  import Commands
  import DailyReset
  import Delivery
  import Api
  import ServerConfig
  import Strconv

  const PrivateOnly := "smsq_bot works only in a private chat"

  /** A command as Telegram's `Message.Command()` and `CommandArguments()` split it. */
  datatype CommandText = CommandText(name: string, args: string)

  /** The parts of a Telegram update `processTGUpdate` looks at. */
  datatype TgUpdate =
    | ChatMessage(chat: int, chatType: string, newMembers: seq<int>, command: Option<CommandText>)
    | ChannelPost(chat: int, isCommand: bool)
    | NoMessage

  /**
   * `processTGUpdate`. `None` is the panic of `ourID` on a malformed bot token, which ends the
   * process.
   */
  function ProcessUpdate(db: Db, cfg: ServerConfig.Config, sha: Subscription.Sha256, u: TgUpdate): (r: Option<Commands.Reaction>)
    requires Wf(db.users)
    ensures r.None? <==> u.ChatMessage? && |u.newMembers| > 0 && Commands.OurId(cfg.botToken).None?
    ensures r.Some? ==> Wf(r.value.db.users)
  {
    match u
    case ChatMessage(chat, chatType, members, command) =>
      if |members| > 0 then
        match Commands.OurId(cfg.botToken)
        case None => None
        case Some(us) =>
          Some(Commands.Reaction(db, if us in members then [Reply(chat, PrivateOnly)] else []))
      else if command.Some? then
        if chatType != "private" then Some(Commands.Reaction(db, [Reply(chat, PrivateOnly)]))
        else Some(Commands.ProcessCommand(db, cfg, sha, chat, command.value.name, command.value.args))
      else Some(Commands.Reaction(db, []))
    case ChannelPost(chat, isCommand) =>
      Some(Commands.Reaction(db, if isCommand then [Reply(chat, PrivateOnly)] else []))
    case NoMessage => Some(Commands.Reaction(db, []))
  }

  /** Commands outside private chats never reach the command handler, and change nothing. */
  lemma GroupCommandsRefused(db: Db, cfg: ServerConfig.Config, sha: Subscription.Sha256, chat: int,
                             chatType: string, command: CommandText)
    requires Wf(db.users) && chatType != "private"
    ensures ProcessUpdate(db, cfg, sha, ChatMessage(chat, chatType, [], Some(command)))
            == Some(Commands.Reaction(db, [Reply(chat, PrivateOnly)]))
  {
  }

  /** When the bot itself is added to a group, the group is told the bot works only in private chats. */
  lemma AddedToGroup(db: Db, cfg: ServerConfig.Config, sha: Subscription.Sha256, chat: int,
                     chatType: string, members: seq<int>, command: Option<CommandText>)
    requires Wf(db.users) && Commands.OurId(cfg.botToken).Some? && Commands.OurId(cfg.botToken).value in members
    ensures ProcessUpdate(db, cfg, sha, ChatMessage(chat, chatType, members, command))
            == Some(Commands.Reaction(db, [Reply(chat, PrivateOnly)]))
  {
  }

  /** The outside world's answers: SHA-256, the time formatter and the request decoders. */
  datatype World = World(sha: Subscription.Sha256, format: Delivery.Formatter, decoders: Api.Decoders)

  /** What the main loop reacts to. */
  datatype Event =
    | Tick(midnight: int)                                      // the periodic timer, with midnight()
    | Post(request: Api.Request, outcome: SendOutcome)         // a request to /v1/sms
    | RetiredPost(request: Api.Request)                        // a request to /v0/sms
    | Incoming(update: TgUpdate)                               // a Telegram update

  /** The state after a step and the messages it sent, or `None` if the process panicked. */
  function Step(db: Db, cfg: ServerConfig.Config, w: World, e: Event): (r: Option<Commands.Reaction>)
    requires Wf(db.users)
    ensures r.Some? ==> Wf(r.value.db.users)
  {
    match e
    case Tick(m) => Some(Commands.Reaction(DailyReset.Periodic(db, m), []))
    case Post(req, outcome) =>
      var h := Api.HandleV1(db.users, cfg, w.decoders, req, w.format, outcome);
      Some(Commands.Reaction(db.(users := h.users), h.sent))
    case RetiredPost(_) => Some(Commands.Reaction(db, []))
    case Incoming(u) => ProcessUpdate(db, cfg, w.sha, u)
  }

  /** A run of the loop: the final state and every message sent, until a panic stops it. */
  datatype Trace = Trace(db: Db, sent: seq<Outgoing>, crashed: bool)

  function Run(db: Db, cfg: ServerConfig.Config, w: World, events: seq<Event>): (r: Trace)
    requires Wf(db.users)
    ensures Wf(r.db.users)
    ensures |events| == 0 ==> r == Trace(db, [], false)
    ensures r.crashed ==> exists i :: 0 <= i < |events| && events[i].Incoming?
    decreases |events|
  {
    if events == [] then Trace(db, [], false)
    else match Step(db, cfg, w, events[0])
      case None => Trace(db, [], true)
      case Some(reaction) =>
        var rest := Run(reaction.db, cfg, w, events[1..]);
        Trace(rest.db, reaction.sent + rest.sent, rest.crashed)
  }

  /** A valid bot token never crashes the loop. */
  lemma {:induction false} GoodTokenNeverCrashes(db: Db, cfg: ServerConfig.Config, w: World, events: seq<Event>)
    requires Wf(db.users) && Commands.OurId(cfg.botToken).Some?
    ensures !Run(db, cfg, w, events).crashed
    decreases |events|
  {
    if events != [] {
      var s := Step(db, cfg, w, events[0]);
      assert s.Some?;
      GoodTokenNeverCrashes(s.value.db, cfg, w, events[1..]);
    }
  }
  /**
   * The over-limit notice is once per run of deliveries only while nothing else touches the
   * table: a chat just told it reached its limit, whose limit the admin then raises with
   * `/limit` to its new `delivered_today`, is told again on its very next attempt.
   */
  lemma LimitRearmsNotice(t: Table, cfg: ServerConfig.Config, s: Delivery.Sms, format: Delivery.Formatter,
                          first: SendOutcome, second: SendOutcome, i: nat)
    requires Wf(t) && i < |t| && !t[i].deleted
    requires Subscription.ChatForKey(t, s.key) == Some(Subscription.Binding(t[i].chatId, t[i].dailyLimit))
    requires t[i].deliveredToday == t[i].dailyLimit
    requires t[i].receivedToday + 2 < Delivery.ReceivedThreshold(cfg.receivedLimit)
    requires Strconv.MinInt64 <= t[i].chatId <= Strconv.MaxInt64
            && Strconv.MinInt64 <= t[i].deliveredToday + 1 <= Strconv.MaxInt64
    ensures var notice := Outgoing(t[i].chatId, true, Raw, Delivery.LimitNotice(cfg.deliveredLimit));
            var d1 := Delivery.Deliver(t, cfg, s, format, first);
            var e := Commands.Limit(d1.users, cfg.adminId, Strconv.FormatInt(t[i].chatId) + " " + Strconv.FormatInt(t[i].deliveredToday + 1));
            var d2 := Delivery.Deliver(e.users, cfg, s, format, second);
            && d1.sent == [notice]
            && e.sent == [Reply(cfg.adminId, "OK")]
            && d2.sent == [notice]
  {
    var chat, limit := t[i].chatId, t[i].deliveredToday + 1;
    var d1 := Delivery.Deliver(t, cfg, s, format, first);
    Delivery.DeliverDailyLimit(t, cfg, s, format, first, i);
    Delivery.DeliverCountsReceived(t, cfg, s, format, first, i);
    Commands.LimitRoundTrip(d1.users, cfg.adminId, chat, limit);
    var u := Commands.Limit(d1.users, cfg.adminId, Strconv.FormatInt(chat) + " " + Strconv.FormatInt(limit)).users;
    assert u == d1.users[i := d1.users[i].(dailyLimit := limit)];
    Delivery.BoundRow(t, s.key, i);
    assert Matches(ActiveKey(s.key), u[i]);
    forall j | 0 <= j < i ensures !Matches(ActiveKey(s.key), u[j]) {
      assert !Matches(ActiveKey(s.key), t[j]);
    }
    assert Select(u, ActiveKey(s.key)) == Some(i);
    Delivery.DeliverDailyLimit(u, cfg, s, format, second, i);
  }
}
