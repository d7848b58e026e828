/**
 * Delivering one SMS to the subscribed chat (go/smsq/main.go `deliver`): key lookup, the
 * per-day received and delivered limits, the one-time over-limit notice, the rendered
 * message, and the counter updates that follow the Telegram send outcome.
 */
module Delivery {
  import opened Basics
  import opened Strconv
  import opened Database
  import opened Telegram
  import opened Subscription
  import Html
  import ServerConfig

  /** `deliveryResult`; `Code` gives the value of its `iota` constant. */
  datatype DeliveryResult = Delivered | NetworkError | Blocked | BadRequest | UserNotFound | ApiRetired | RateLimited

  function Code(r: DeliveryResult): (n: int)
    ensures 0 <= n < 7
  {
    match r
    case Delivered => 0
    case NetworkError => 1
    case Blocked => 2
    case BadRequest => 3
    case UserNotFound => 4
    case ApiRetired => 5
    case RateLimited => 6
  }

  /** `deliveryResult.String`, which switches on the underlying integer. */
  function Name(n: int): (r: string)
    ensures r == "undefined" <==> n < 0 || n > 6
  {
    if n == 0 then "delivered"
    else if n == 1 then "network_error"
    else if n == 2 then "blocked"
    else if n == 3 then "bad_request"
    else if n == 4 then "user_not_found"
    else if n == 5 then "api_retired"
    else if n == 6 then "rate_limited"
    else "undefined"
  }

  /** The seven constants print distinct names, so a name identifies its result. */
  lemma NameIdentifiesResult(a: DeliveryResult, b: DeliveryResult)
    ensures Name(Code(a)) == Name(Code(b)) <==> a == b
  {
  }

  /** The decrypted `sms` record the app posts. */
  datatype Sms = Sms(
    key: string,
    id: int,
    text: string,
    sim: string,
    carrier: string,
    sender: string,
    timestamp: int,
    offset: int)

  /**
   * `time.Unix(timestamp, 0).In(time.FixedZone("", offset)).Format("2006-01-02 15:04:05")`,
   * supplied by the caller.
   */
  type Formatter = (int, int) -> string

  /** The escaped sender, followed by the escaped SIM name, or the carrier when the SIM name is empty. */
  function SenderLine(s: Sms): (line: string)
    ensures line == "" <==> s.sender == "" && s.sim == "" && s.carrier == ""
  {
    var sender := Html.Escape(s.sender);
    var sim := if Html.Escape(s.sim) == "" then Html.Escape(s.carrier) else Html.Escape(s.sim);
    if sim != "" then Join([sender, sim], " ") else sender
  }

  function Italic(line: string): string {
    "<i>" + line + "</i>"
  }

  /**
   * The italic lines above the body: the time stamp, then the sender line, which is there
   * exactly when the sender, SIM or carrier is not empty.
   */
  function Header(stamp: string, s: Sms): (h: seq<string>)
    ensures 1 <= |h| <= 2 && h[0] == Italic(stamp)
    ensures |h| == 2 <==> s.sender != "" || s.sim != "" || s.carrier != ""
    ensures |h| == 2 ==> h[1] == Italic(SenderLine(s))
  {
    if SenderLine(s) != "" then [Italic(stamp), Italic(SenderLine(s))] else [Italic(stamp)]
  }

  /** The HTML text of the delivered message: the header lines and the escaped body, joined by newlines. */
  function Render(stamp: string, s: Sms): (r: string)
    ensures |r| > |Italic(stamp)| && r[..|Italic(stamp)|] == Italic(stamp) && r[|Italic(stamp)|] == '\n'
  {
    Join(Header(stamp, s) + [Html.Escape(s.text)], "\n")
  }

  /** The SIM name is shown when present, and the carrier only in its absence. */
  lemma SenderLineParts(s: Sms)
    ensures s.sim != "" ==> SenderLine(s) == Html.Escape(s.sender) + " " + Html.Escape(s.sim)
    ensures s.sim == "" && s.carrier != "" ==> SenderLine(s) == Html.Escape(s.sender) + " " + Html.Escape(s.carrier)
    ensures s.sim == "" && s.carrier == "" ==> SenderLine(s) == Html.Escape(s.sender)
  {
    JoinTwo(Html.Escape(s.sender), Html.Escape(s.sim), " ");
    JoinTwo(Html.Escape(s.sender), Html.Escape(s.carrier), " ");
  }

  /** The shape of a rendered message: italic stamp, optional italic sender line, escaped body last. */
  lemma RenderShape(stamp: string, s: Sms)
    ensures SenderLine(s) == "" ==> Render(stamp, s) == Italic(stamp) + "\n" + Html.Escape(s.text)
    ensures SenderLine(s) != "" ==>
              Render(stamp, s) == Italic(stamp) + "\n" + Italic(SenderLine(s)) + "\n" + Html.Escape(s.text)
  {
    var body := Html.Escape(s.text);
    if SenderLine(s) != "" {
      assert Header(stamp, s) + [body] == [Italic(stamp), Italic(SenderLine(s)), body];
      JoinThree(Italic(stamp), Italic(SenderLine(s)), body, "\n");
    } else {
      assert Header(stamp, s) + [body] == [Italic(stamp), body];
      JoinTwo(Italic(stamp), body, "\n");
    }
  }

  /** The SMS body can be read back: it is the unescaped tail after the header. */
  lemma RenderBodyRecoverable(stamp: string, s: Sms)
    ensures var h := Join(Header(stamp, s), "\n");
            && Render(stamp, s) == h + "\n" + Html.Escape(s.text)
            && Html.Unescape(Render(stamp, s)[|h| + 1..]) == s.text
  {
    RenderShape(stamp, s);
    var h := Join(Header(stamp, s), "\n");
    if SenderLine(s) != "" {
      JoinTwo(Italic(stamp), Italic(SenderLine(s)), "\n");
    }
    var r := Render(stamp, s);
    assert r[|h| + 1..] == Html.Escape(s.text);
    Html.UnescapeEscape(s.text);
  }

  /** With the same stamp and sender fields, different bodies render differently. */
  lemma RenderInjectiveInBody(stamp: string, a: Sms, b: Sms)
    requires a.sender == b.sender && a.sim == b.sim && a.carrier == b.carrier
    requires Render(stamp, a) == Render(stamp, b)
    ensures a.text == b.text
  {
    RenderBodyRecoverable(stamp, a);
    RenderBodyRecoverable(stamp, b);
    assert Header(stamp, a) == Header(stamp, b);
  }

  /** No `<` in the sender line: the SMS fields cannot open a tag. */
  lemma SenderLineNoTag(s: Sms)
    ensures Count('<', SenderLine(s)) == 0
  {
    Html.EscapeNoTagOpen(s.sender);
    Html.EscapeNoTagOpen(s.sim);
    Html.EscapeNoTagOpen(s.carrier);
    var sim := if Html.Escape(s.sim) == "" then Html.Escape(s.carrier) else Html.Escape(s.sim);
    if sim != "" {
      JoinTwo(Html.Escape(s.sender), sim, " ");
      CountAppend('<', Html.Escape(s.sender) + " ", sim);
      CountAppend('<', Html.Escape(s.sender), " ");
    }
  }

  /**
   * Every tag in a rendered message is one of the italic tags the bot adds (or comes from the
   * time stamp): the sender, SIM, carrier and body contribute no `<`.
   */
  lemma RenderTags(stamp: string, s: Sms)
    ensures Count('<', Render(stamp, s)) == Count('<', stamp) + (if SenderLine(s) == "" then 2 else 4)
  {
    RenderShape(stamp, s);
    Html.EscapeNoTagOpen(s.text);
    var body := Html.Escape(s.text);
    CountAppend('<', "<i>", stamp);
    CountAppend('<', "<i>" + stamp, "</i>");
    var it := Italic(stamp);
    if SenderLine(s) == "" {
      CountAppend('<', it + "\n", body);
      CountAppend('<', it, "\n");
    } else {
      var sl := SenderLine(s);
      SenderLineNoTag(s);
      CountAppend('<', "<i>", sl);
      CountAppend('<', "<i>" + sl, "</i>");
      var il := Italic(sl);
      CountAppend('<', it + "\n" + il + "\n", body);
      CountAppend('<', it + "\n" + il, "\n");
      CountAppend('<', it + "\n", il);
      CountAppend('<', it, "\n");
    }
  }

  /** The over-limit notice; it quotes the configured limit, not the chat's own `daily_limit`. */
  function LimitNotice(limit: int): (text: string)
    ensures |text| > 43 && text[0] == 'W'
    ensures MinInt64 <= limit <= MaxInt64 ==> ParseInt(text[28..|text| - 15]) == Parsed(limit)
  {
    var n := FormatInt(limit);
    assert MinInt64 <= limit <= MaxInt64 ==> ParseInt(n) == Parsed(limit) by {
      if MinInt64 <= limit <= MaxInt64 { FormatParseRoundTrip(limit); }
    }
    var text := "We cannot deliver more than " + n + " messages a day";
    assert text[28..|text| - 15] == n;
    text
  }

  /** A notice never looks like a rendered message. */
  lemma NoticeIsNotRender(limit: int, stamp: string, s: Sms)
    ensures LimitNotice(limit) != Render(stamp, s)
  {
    assert Render(stamp, s)[0] == '<';
  }

  /** Go's 64-bit `int` arithmetic: `x` brought into the `int64` range modulo 2^64. */
  function Wrap64(x: int): (r: int)
    ensures MinInt64 <= r <= MaxInt64
    ensures (x - r) % 0x1_0000_0000_0000_0000 == 0
  {
    (x - MinInt64) % 0x1_0000_0000_0000_0000 + MinInt64
  }

  /**
   * `ReceivedLimit+1` as the bot computes it: an `int` sum, which for the largest `int` wraps
   * to the smallest.
   */
  function ReceivedThreshold(limit: int): (n: int)
    ensures MinInt64 <= limit < MaxInt64 ==> n == limit + 1
    ensures limit == MaxInt64 ==> n == MinInt64
  {
    Wrap64(limit + 1)
  }

  /** The result of one delivery: its code, the users table after it, and the messages sent. */
  datatype Delivery = Delivery(result: DeliveryResult, users: Table, sent: seq<Outgoing>)

  /**
   * `deliver(sms)`. The key's first active row is found by `chatForKey`; the counters are then
   * updated and read back by `chat_id`, which under unique chat ids is that same row.
   * `outcome` is what the Telegram API answers to the rendered message.
   */
  function Deliver(t: Table, cfg: ServerConfig.Config, s: Sms, format: Formatter, outcome: SendOutcome): (d: Delivery)
    requires Wf(t)
    ensures Wf(d.users) && |d.users| == |t|
    ensures |d.sent| <= 1
    ensures d.result in {Delivered, NetworkError, Blocked, UserNotFound, RateLimited}
  {
    match Select(t, ActiveKey(s.key))
    case None => Delivery(UserNotFound, t, [])
    case Some(i) =>
      var chat := t[i].chatId;
      var dailyLimit := t[i].dailyLimit;
      var t1 := Update(t, IncReceivedToday, ChatIs(chat));
      if t1[i].receivedToday >= ReceivedThreshold(cfg.receivedLimit) then
        Delivery(RateLimited, t1, [])
      else if t1[i].deliveredToday >= dailyLimit then
        if t1[i].deliveredToday == dailyLimit then
          Delivery(RateLimited, Update(t1, IncDeliveredToday, ChatIs(chat)),
                   [Outgoing(chat, true, Raw, LimitNotice(cfg.deliveredLimit))])
        else
          Delivery(RateLimited, t1, [])
      else
        var message := Outgoing(chat, true, Html, Render(format(s.timestamp, s.offset), s));
        match outcome
        case Sent => Delivery(Delivered, Update(t1, IncDelivered, ChatIs(chat)), [message])
        case BlockedByUser => Delivery(Blocked, t1, [message])
        case SendFailed => Delivery(NetworkError, t1, [message])
  }

  /** A key with no active subscription: `userNotFound`, nothing changes, nothing is sent. */
  lemma DeliverUnknownKey(t: Table, cfg: ServerConfig.Config, s: Sms, format: Formatter, outcome: SendOutcome)
    requires Wf(t) && ChatForKey(t, s.key).None?
    ensures Deliver(t, cfg, s, format, outcome) == Delivery(UserNotFound, t, [])
  {
  }

  /** The row `chatForKey` found is the first active row with the key. */
  lemma BoundRow(t: Table, key: string, i: nat)
    requires Wf(t) && i < |t|
    requires ChatForKey(t, key) == Some(Binding(t[i].chatId, t[i].dailyLimit)) && !t[i].deleted
    ensures Select(t, ActiveKey(key)) == Some(i)
  {
    var k := Select(t, ActiveKey(key)).value;
    OnlyRowOfChat(t, i, k);
  }

  /**
   * For a known key, every attempt counts as received: only the bound row changes, only its
   * counters change, and `received_today` goes up by one.
   */
  lemma DeliverCountsReceived(t: Table, cfg: ServerConfig.Config, s: Sms, format: Formatter, outcome: SendOutcome, i: nat)
    requires Wf(t) && i < |t| && !t[i].deleted
    requires ChatForKey(t, s.key) == Some(Binding(t[i].chatId, t[i].dailyLimit))
    ensures var d := Deliver(t, cfg, s, format, outcome);
            && d.users[i].receivedToday == t[i].receivedToday + 1
            && SameAccounts(t, d.users)
            && forall j :: 0 <= j < |t| && j != i ==> d.users[j] == t[j]
  {
    BoundRow(t, s.key, i);
    var t1 := Update(t, IncReceivedToday, ChatIs(t[i].chatId));
    UpdateChatIsUpdateAt(t, i, IncReceivedToday);
    UpdateChatIsUpdateAt(t1, i, IncDeliveredToday);
    UpdateChatIsUpdateAt(t1, i, IncDelivered);
  }

  /**
   * The received limit: the attempt is refused as `rateLimited` when the new `received_today`
   * reaches `ReceivedLimit+1`, computed in 64-bit `int`; then nothing is sent and the delivered counters stay.
   */
  lemma DeliverReceivedLimit(t: Table, cfg: ServerConfig.Config, s: Sms, format: Formatter, outcome: SendOutcome, i: nat)
    requires Wf(t) && i < |t| && !t[i].deleted
    requires ChatForKey(t, s.key) == Some(Binding(t[i].chatId, t[i].dailyLimit))
    requires t[i].receivedToday + 1 >= ReceivedThreshold(cfg.receivedLimit)
    ensures var d := Deliver(t, cfg, s, format, outcome);
            && d.result == RateLimited && d.sent == []
            && d.users[i].delivered == t[i].delivered
            && d.users[i].deliveredToday == t[i].deliveredToday
  {
    BoundRow(t, s.key, i);
  }

  /**
   * A `received_limit` of the largest `int` passes the configuration check, but its `+1`
   * wraps, so every attempt on a known key whose counter is not negative is `rateLimited`.
   */
  lemma MaxReceivedLimitRefusesAll(t: Table, cfg: ServerConfig.Config, s: Sms, format: Formatter, outcome: SendOutcome)
    requires Wf(t) && cfg.receivedLimit == MaxInt64
    requires forall j :: 0 <= j < |t| ==> t[j].receivedToday >= 0
    requires ChatForKey(t, s.key).Some?
    ensures var d := Deliver(t, cfg, s, format, outcome);
            d.result == RateLimited && d.sent == []
  {
    var i := Select(t, ActiveKey(s.key)).value;
    DeliverReceivedLimit(t, cfg, s, format, outcome, i);
  }

  /**
   * The daily delivered limit: once `delivered_today` reaches the chat's `daily_limit` the
   * result is `rateLimited`; the notice is sent, and `delivered_today` bumped past the limit,
   * only when the two are equal.
   */
  lemma DeliverDailyLimit(t: Table, cfg: ServerConfig.Config, s: Sms, format: Formatter, outcome: SendOutcome, i: nat)
    requires Wf(t) && i < |t| && !t[i].deleted
    requires ChatForKey(t, s.key) == Some(Binding(t[i].chatId, t[i].dailyLimit))
    requires t[i].receivedToday + 1 < ReceivedThreshold(cfg.receivedLimit)
    requires t[i].deliveredToday >= t[i].dailyLimit
    ensures var d := Deliver(t, cfg, s, format, outcome);
            && d.result == RateLimited
            && d.users[i].delivered == t[i].delivered
            && (t[i].deliveredToday == t[i].dailyLimit ==>
                  && d.sent == [Outgoing(t[i].chatId, true, Raw, LimitNotice(cfg.deliveredLimit))]
                  && d.users[i].deliveredToday == t[i].deliveredToday + 1)
            && (t[i].deliveredToday > t[i].dailyLimit ==>
                  d.sent == [] && d.users[i].deliveredToday == t[i].deliveredToday)
  {
    BoundRow(t, s.key, i);
    var t1 := Update(t, IncReceivedToday, ChatIs(t[i].chatId));
    UpdateChatIsUpdateAt(t1, i, IncDeliveredToday);
  }

  /**
   * Under both limits the rendered message is sent with a notification: on success
   * `delivered` and `delivered_today` each go up by one; a 403 gives `blocked`, any other
   * failure `networkError`, and then neither counter moves.
   */
  lemma DeliverSends(t: Table, cfg: ServerConfig.Config, s: Sms, format: Formatter, outcome: SendOutcome, i: nat)
    requires Wf(t) && i < |t| && !t[i].deleted
    requires ChatForKey(t, s.key) == Some(Binding(t[i].chatId, t[i].dailyLimit))
    requires t[i].receivedToday + 1 < ReceivedThreshold(cfg.receivedLimit)
    requires t[i].deliveredToday < t[i].dailyLimit
    ensures var d := Deliver(t, cfg, s, format, outcome);
            && d.sent == [Outgoing(t[i].chatId, true, Html, Render(format(s.timestamp, s.offset), s))]
            && d.result == (match outcome case Sent => Delivered case BlockedByUser => Blocked case SendFailed => NetworkError)
            && d.users[i].delivered == t[i].delivered + (if outcome == Sent then 1 else 0)
            && d.users[i].deliveredToday == t[i].deliveredToday + (if outcome == Sent then 1 else 0)
  {
    BoundRow(t, s.key, i);
    var t1 := Update(t, IncReceivedToday, ChatIs(t[i].chatId));
    UpdateChatIsUpdateAt(t1, i, IncDelivered);
  }

  /**
   * The `smses` figure of `/stat` goes up by one exactly for a delivered message; a
   * rate-limited, blocked or failed attempt leaves it alone.
   */
  lemma DeliverCountsInStat(t: Table, cfg: ServerConfig.Config, s: Sms, format: Formatter, outcome: SendOutcome)
    requires Wf(t)
    ensures var d := Deliver(t, cfg, s, format, outcome);
            Sum(d.users, TotalDelivered) == Sum(t, TotalDelivered) + (if d.result == Delivered then 1 else 0)
  {
    match Select(t, ActiveKey(s.key))
    case None =>
    case Some(i) =>
      var chat := t[i].chatId;
      var t1 := Update(t, IncReceivedToday, ChatIs(chat));
      UpdateChatIsUpdateAt(t, i, IncReceivedToday);
      SumUpdateAt(t, i, IncReceivedToday, TotalDelivered);
      UpdateChatIsUpdateAt(t1, i, IncDeliveredToday);
      SumUpdateAt(t1, i, IncDeliveredToday, TotalDelivered);
      UpdateChatIsUpdateAt(t1, i, IncDelivered);
      SumUpdateAt(t1, i, IncDelivered, TotalDelivered);
  }

  /** How many of the messages go to `chat` with exactly this text. */
  function CountSent(sent: seq<Outgoing>, chat: int, text: string): (n: nat)
    ensures n <= |sent|
  {
    if sent == [] then 0
    else (if sent[0].chat == chat && sent[0].text == text then 1 else 0) + CountSent(sent[1..], chat, text)
  }

  lemma {:induction false} CountSentAppend(a: seq<Outgoing>, b: seq<Outgoing>, chat: int, text: string)
    ensures CountSent(a + b, chat, text) == CountSent(a, chat, text) + CountSent(b, chat, text)
  {
    if a != [] {
      assert (a + b)[0] == a[0] && (a + b)[1..] == a[1..] + b;
      CountSentAppend(a[1..], b, chat, text);
    } else {
      assert a + b == b;
    }
  }

  /** One SMS posted by the app, with the outcome Telegram answers if a message is sent for it. */
  datatype Attempt = Attempt(sms: Sms, outcome: SendOutcome)

  /** Several deliveries in a row, as the main loop serialises them. */
  datatype Batch = Batch(users: Table, sent: seq<Outgoing>, results: seq<DeliveryResult>)

  function DeliverAll(t: Table, cfg: ServerConfig.Config, format: Formatter, attempts: seq<Attempt>): (b: Batch)
    requires Wf(t)
    ensures Wf(b.users) && |b.users| == |t| && |b.results| == |attempts|
    decreases |attempts|
  {
    if attempts == [] then Batch(t, [], [])
    else
      var d := Deliver(t, cfg, attempts[0].sms, format, attempts[0].outcome);
      var rest := DeliverAll(d.users, cfg, format, attempts[1..]);
      Batch(rest.users, d.sent + rest.sent, [d.result] + rest.results)
  }

  /**
   * One delivery, seen from a fixed row: the row keeps its chat id and limit, `delivered_today`
   * never goes down, and at most one notice goes to the chat, only when `delivered_today` was
   * at the limit, after which it is past it.
   */
  lemma DeliverNoticeStep(t: Table, cfg: ServerConfig.Config, s: Sms, format: Formatter, outcome: SendOutcome, j: nat)
    requires Wf(t) && j < |t|
    ensures var d := Deliver(t, cfg, s, format, outcome);
            var n := CountSent(d.sent, t[j].chatId, LimitNotice(cfg.deliveredLimit));
            && d.users[j].chatId == t[j].chatId && d.users[j].dailyLimit == t[j].dailyLimit
            && d.users[j].deliveredToday >= t[j].deliveredToday
            && n <= 1
            && (n == 1 ==> t[j].deliveredToday == t[j].dailyLimit && d.users[j].deliveredToday > t[j].dailyLimit)
  {
    var d := Deliver(t, cfg, s, format, outcome);
    match Select(t, ActiveKey(s.key))
    case None =>
    case Some(i) =>
      DeliverCountsReceived(t, cfg, s, format, outcome, i);
      if i != j {
        assert t[i].chatId != t[j].chatId;
      } else if t[i].receivedToday + 1 < ReceivedThreshold(cfg.receivedLimit) {
        if t[i].deliveredToday >= t[i].dailyLimit {
          DeliverDailyLimit(t, cfg, s, format, outcome, i);
        } else {
          DeliverSends(t, cfg, s, format, outcome, i);
          NoticeIsNotRender(cfg.deliveredLimit, format(s.timestamp, s.offset), s);
        }
      }
  }

  /**
   * Over a run of deliveries with nothing else in between, the over-limit notice reaches a chat
   * at most once, and not at all when the chat is already past its limit. A daily reset or a
   * `/limit` in between can re-arm it.
   */
  lemma {:induction false} NoticeAtMostOnce(t: Table, cfg: ServerConfig.Config, format: Formatter, attempts: seq<Attempt>, j: nat)
    requires Wf(t) && j < |t|
    ensures CountSent(DeliverAll(t, cfg, format, attempts).sent, t[j].chatId, LimitNotice(cfg.deliveredLimit))
            <= if t[j].deliveredToday > t[j].dailyLimit then 0 else 1
    decreases |attempts|
  {
    if attempts != [] {
      var d := Deliver(t, cfg, attempts[0].sms, format, attempts[0].outcome);
      var rest := DeliverAll(d.users, cfg, format, attempts[1..]);
      DeliverNoticeStep(t, cfg, attempts[0].sms, format, attempts[0].outcome, j);
      NoticeAtMostOnce(d.users, cfg, format, attempts[1..], j);
      CountSentAppend(d.sent, rest.sent, t[j].chatId, LimitNotice(cfg.deliveredLimit));
    }
  }
}
