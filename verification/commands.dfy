/**
 * The bot's command handling (go/smsq/main.go `processIncomingCommand`,
 * `processAdminMessage`, `stat`, `broadcast`, `direct`, `limit`, `feedback`, `ourID`): what a
 * command from a chat does to the database and which messages it sends.
 */
module Commands {
  import opened Basics
  import opened Strconv
  import opened Database
  import opened Telegram
  import Subscription
  import ServerConfig

  /**
   * `unicode.ToLower` on one character, exact wherever the result is compared with an ASCII
   * name: ASCII capitals, and the only two other characters whose lower case is ASCII
   * (U+0130 and U+212A), fold into ASCII; every other character stays outside ASCII.
   */
  function FoldChar(c: char): char {
    if 'A' <= c <= 'Z' then (c as int + 32) as char
    else if c == 0x130 as char then 'i'
    else if c == 0x212A as char then 'k'
    else c
  }

  /** `strings.ToLower`, one character at a time. */
  function Lower(s: string): (r: string)
    ensures |r| == |s|
  {
    seq(|s|, i requires 0 <= i < |s| => FoldChar(s[i]))
  }

  /** A name made of lower-case ASCII letters, as every command name is. */
  predicate AsciiName(name: string) {
    forall i :: 0 <= i < |name| ==> 'a' <= name[i] <= 'z'
  }

  /** The spellings of a lower-case ASCII letter that `ToLower` folds into it. */
  predicate Spells(c: char, letter: char) {
    c == letter || c as int == letter as int - 32
    || (letter == 'i' && c == 0x130 as char) || (letter == 'k' && c == 0x212A as char)
  }

  /** A command matches a name exactly when each character is one of the letter's spellings. */
  lemma LowerMatches(s: string, name: string)
    requires AsciiName(name)
    ensures Lower(s) == name <==> |s| == |name| && forall i :: 0 <= i < |s| ==> Spells(s[i], name[i])
  {
    if |s| == |name| && forall i :: 0 <= i < |s| ==> Spells(s[i], name[i]) {
      forall i | 0 <= i < |s| ensures Lower(s)[i] == name[i] {
        assert Spells(s[i], name[i]);
      }
    }
  }

  /** Lowering twice is lowering once. */
  lemma LowerIdempotent(s: string)
    ensures Lower(Lower(s)) == Lower(s)
  {
  }

  /** What a command did: the database after it and the messages sent. */
  datatype Reaction = Reaction(db: Db, sent: seq<Outgoing>)

  const UnknownCommand := "Unknown command"

  const HelpText :=
    "smsq: Receive SMS messages in Telegram\n"
    + "1. Install Android app\n"
    + "2. Open app, start forwarding, connect Telegram\n"
    + "3. Now you receive your SMS messages in this bot!\n"
    + "Project page: https://smsq.me\n"
    + "Source code: https://github.com/igrmk/smsq\n"
    + "\n"
    + "Bot commands:\n"
    + "<b>/help</b> — Help\n"
    + "<b>/stop</b> — Revoke access\n"
    + "<b>/feedback</b> — Send feedback"

  /** The commands `processAdminMessage` intercepts when they come from the admin chat. */
  const AdminCommands: set<string> := {"stat", "broadcast", "direct", "limit"}

  /**
   * `stat`: users, active users, total and today's delivered counts, one per line. No figure
   * contains a newline, so the reply has exactly four lines, and the first is the number of
   * subscribed users.
   */
  function StatText(t: Table): (text: string)
    ensures Count('\n', text) == 3
    ensures SplitFirst(text, '\n')[0] == "users: " + FormatInt(CountWhere(t, Active))
  {
    var users, active := CountWhere(t, Active), CountWhere(t, Delivering);
    var total, today := Sum(t, TotalDelivered), Sum(t, TodayDelivered);
    FormatIntChars(users, '\n');
    FormatIntChars(active, '\n');
    FormatIntChars(total, '\n');
    FormatIntChars(today, '\n');
    JoinFourLines("users: " + FormatInt(users), "active users: " + FormatInt(active),
                  "smses: " + FormatInt(total), "smses today: " + FormatInt(today));
    Join(["users: " + FormatInt(users), "active users: " + FormatInt(active),
          "smses: " + FormatInt(total), "smses today: " + FormatInt(today)], "\n")
  }

  /** Four lines without newlines, joined by newlines: three newlines, and the first line comes back first. */
  lemma JoinFourLines(l1: string, l2: string, l3: string, l4: string)
    requires '\n' !in l1 && '\n' !in l2 && '\n' !in l3 && '\n' !in l4
    ensures Count('\n', Join([l1, l2, l3, l4], "\n")) == 3
    ensures SplitFirst(Join([l1, l2, l3, l4], "\n"), '\n')[0] == l1
  {
    var rest := Join([l2, l3, l4], "\n");
    assert [l1, l2, l3, l4][1..] == [l2, l3, l4];
    JoinThree(l2, l3, l4, "\n");
    SplitFirstOf(l1, '\n', rest);
    CountAppend('\n', l1 + "\n", rest);
    CountAppend('\n', l1, "\n");
    CountAppend('\n', l2 + "\n" + l3 + "\n", l4);
    CountAppend('\n', l2 + "\n" + l3, "\n");
    CountAppend('\n', l2 + "\n", l3);
    CountAppend('\n', l2, "\n");
    assert Count('\n', "\n") == 1;
  }

  /** `broadcastChats`: the chat ids of the active rows, in scan order. */
  function ActiveChats(t: Table): (chats: seq<int>)
    ensures |chats| == CountWhere(t, Active)
  {
    if t == [] then []
    else (if !t[0].deleted then [t[0].chatId] else []) + ActiveChats(t[1..])
  }

  /** The broadcast list holds exactly the chats with an active subscription. */
  lemma {:induction false} ActiveChatsMeaning(t: Table, c: int)
    ensures c in ActiveChats(t) <==> Subscription.UserExists(t, c)
  {
    if t != [] {
      ActiveChatsMeaning(t[1..], c);
      assert Subscription.UserExists(t, c) <==> Matches(ActiveChat(c), t[0]) || Subscription.UserExists(t[1..], c);
    }
  }

  /** `broadcast(text)`: the text to every active chat with a notification, then "OK" to the admin. */
  function Broadcast(t: Table, admin: int, text: string): (sent: seq<Outgoing>)
    ensures text == "" <==> sent == []
    ensures text != "" ==> |sent| == CountWhere(t, Active) + 1 && sent[|sent| - 1] == Reply(admin, "OK")
    ensures text != "" ==> forall j :: 0 <= j < |sent| - 1 ==> sent[j] == Outgoing(sent[j].chat, true, Raw, text)
  {
    if text == "" then []
    else
      var chats := ActiveChats(t);
      seq(|chats|, i requires 0 <= i < |chats| => Outgoing(chats[i], true, Raw, text)) + [Reply(admin, "OK")]
  }

  /** A broadcast reaches a chat exactly when the chat has an active subscription. */
  lemma BroadcastReachesSubscribers(t: Table, admin: int, text: string, c: int)
    requires text != ""
    ensures var sent := Broadcast(t, admin, text);
            (exists j :: 0 <= j < |sent| - 1 && sent[j].chat == c) <==> Subscription.UserExists(t, c)
  {
    var sent := Broadcast(t, admin, text);
    var chats := ActiveChats(t);
    ActiveChatsMeaning(t, c);
    assert forall j :: 0 <= j < |chats| ==> sent[j].chat == chats[j];
    if c in chats {
      var j :| 0 <= j < |chats| && chats[j] == c;
      assert sent[j].chat == c;
    }
  }

  /** `direct(arguments)`: "chatID text" sends the text to that chat with a notification. */
  function Direct(admin: int, args: string): (sent: seq<Outgoing>)
    ensures ' ' !in args ==> sent == [Reply(admin, "Usage: /direct chatID text")]
  {
    var parts := SplitFirst(args, ' ');
    if |parts| < 2 then [Reply(admin, "Usage: /direct chatID text")]
    else match ParseInt(parts[0])
      case Parsed(whom) =>
        if parts[1] == "" then [] else [Outgoing(whom, true, Raw, parts[1]), Reply(admin, "OK")]
      case _ => [Reply(admin, "First argument is invalid")]
  }

  /**
   * `direct` read through its argument: the chat id is everything before the first space,
   * the text everything after it; a chat id that is not a 64-bit decimal is refused, and an
   * empty text sends nothing at all.
   */
  lemma DirectMeaning(admin: int, w: string, text: string)
    requires ' ' !in w
    ensures !ParseInt(w).Parsed? ==> Direct(admin, w + " " + text) == [Reply(admin, "First argument is invalid")]
    ensures ParseInt(w).Parsed? && text == "" ==> Direct(admin, w + " " + text) == []
    ensures ParseInt(w).Parsed? && text != "" ==>
              Direct(admin, w + " " + text) == [Outgoing(ParseInt(w).value, true, Raw, text), Reply(admin, "OK")]
  {
    SplitFirstOf(w, ' ', text);
  }

  /** Round trip: `/direct <id> <text>` with a printed chat id reaches exactly that chat. */
  lemma DirectRoundTrip(admin: int, chat: int, text: string)
    requires MinInt64 <= chat <= MaxInt64 && text != ""
    ensures Direct(admin, FormatInt(chat) + " " + text) == [Outgoing(chat, true, Raw, text), Reply(admin, "OK")]
  {
    FormatIntChars(chat, ' ');
    FormatParseRoundTrip(chat);
    DirectMeaning(admin, FormatInt(chat), text);
  }

  /**
   * `limit(arguments)`: "chatID limit" sets that chat's `daily_limit`; the answer is "OK" only
   * when exactly one row was updated.
   */
  function Limit(t: Table, admin: int, args: string): (e: Subscription.Effect)
    ensures Wf(t) ==> Wf(e.users)
    ensures |e.sent| == 1 && e.sent[0].chat == admin
    ensures ' ' !in args ==> e == Subscription.Effect(t, [Reply(admin, "Usage: /limit chatID text")])
  {
    var parts := SplitFirst(args, ' ');
    if |parts| < 2 then Subscription.Effect(t, [Reply(admin, "Usage: /limit chatID text")])
    else match ParseInt(parts[0])
      case Parsed(whom) =>
        (match ParseInt(parts[1])
         case Parsed(limit) =>
           var rows := CountWhere(t, ChatIs(whom));
           Subscription.Effect(Update(t, SetDailyLimit(limit), ChatIs(whom)),
                               [Reply(admin, if rows != 1 then "User not found" else "OK")])
         case _ => Subscription.Effect(t, [Reply(admin, "Second argument is invalid")]))
      case _ => Subscription.Effect(t, [Reply(admin, "First argument is invalid")])
  }

  /**
   * `limit` read through its argument: the chat id is everything before the first space and the
   * limit everything after it, each parsed as a 64-bit decimal in turn; a word that does not
   * parse (a sign-prefixed or zero-padded number parses, a blank or out-of-range one does not)
   * is refused by name and the table is left alone.
   */
  lemma LimitMeaning(t: Table, admin: int, w: string, rest: string)
    requires ' ' !in w
    ensures !ParseInt(w).Parsed? ==>
              Limit(t, admin, w + " " + rest) == Subscription.Effect(t, [Reply(admin, "First argument is invalid")])
    ensures ParseInt(w).Parsed? && !ParseInt(rest).Parsed? ==>
              Limit(t, admin, w + " " + rest) == Subscription.Effect(t, [Reply(admin, "Second argument is invalid")])
    ensures ParseInt(w).Parsed? && ParseInt(rest).Parsed? ==>
              var e := Limit(t, admin, w + " " + rest);
              && e.users == Update(t, SetDailyLimit(ParseInt(rest).value), ChatIs(ParseInt(w).value))
              && (CountWhere(t, ChatIs(ParseInt(w).value)) == 1 ==> e.sent == [Reply(admin, "OK")])
              && (CountWhere(t, ChatIs(ParseInt(w).value)) != 1 ==> e.sent == [Reply(admin, "User not found")])
  {
    SplitFirstOf(w, ' ', rest);
  }

  /**
   * `/limit <id> <n>` with printed numbers: a known chat gets the new daily limit and the
   * admin "OK"; for an unknown chat nothing changes and the admin hears "User not found".
   * Deleted subscriptions count as known, as the update does not look at `deleted`.
   */
  lemma LimitRoundTrip(t: Table, admin: int, chat: int, limit: int)
    requires Wf(t)
    requires MinInt64 <= chat <= MaxInt64 && MinInt64 <= limit <= MaxInt64
    ensures var e := Limit(t, admin, FormatInt(chat) + " " + FormatInt(limit));
            && (forall i :: 0 <= i < |t| && t[i].chatId == chat ==> e.users == t[i := t[i].(dailyLimit := limit)])
            && ((exists i :: 0 <= i < |t| && t[i].chatId == chat) ==> e.sent == [Reply(admin, "OK")])
            && ((forall i :: 0 <= i < |t| ==> t[i].chatId != chat) ==>
                  e.users == t && e.sent == [Reply(admin, "User not found")])
  {
    FormatIntChars(chat, ' ');
    FormatParseRoundTrip(chat);
    FormatParseRoundTrip(limit);
    SplitFirstOf(FormatInt(chat), ' ', FormatInt(limit));
    CountChatAtMostOne(t, chat);
    forall i | 0 <= i < |t| && t[i].chatId == chat
      ensures Update(t, SetDailyLimit(limit), ChatIs(chat)) == t[i := t[i].(dailyLimit := limit)]
    {
      UpdateChatIsUpdateAt(t, i, SetDailyLimit(limit));
    }
    if forall i :: 0 <= i < |t| ==> t[i].chatId != chat {
      assert Update(t, SetDailyLimit(limit), ChatIs(chat)) == t;
    }
  }

  /** `feedback(chatID, text)`: a non-empty text is stored and forwarded to the admin. */
  function SendFeedback(db: Db, admin: int, chat: int, text: string): (r: Reaction)
    ensures r.db.users == db.users && r.db.midnight == db.midnight
    ensures text == "" ==> r == Reaction(db, [Reply(chat, "Command format: /feedback <text>")])
    ensures text != "" ==>
              && r.db.feedback == db.feedback + [Feedback(chat, text)]
              && r.sent == [Reply(chat, "Thank you for your feedback"),
                            Outgoing(admin, true, Raw, "Feedback from " + FormatInt(chat) + ": " + text)]
  {
    if text == "" then Reaction(db, [Reply(chat, "Command format: /feedback <text>")])
    else
      Reaction(db.(feedback := db.feedback + [Feedback(chat, text)]),
               [Reply(chat, "Thank you for your feedback"),
                Outgoing(admin, true, Raw, "Feedback from " + FormatInt(chat) + ": " + text)])
  }

  /** The users table after a subscription change, with the messages it sent. */
  function WithUsers(db: Db, e: Subscription.Effect): Reaction {
    Reaction(db.(users := e.users), e.sent)
  }

  /** `processAdminMessage` for one of the four admin commands. */
  function AdminCommand(db: Db, admin: int, command: string, args: string): (r: Reaction)
    requires command in AdminCommands
    ensures Wf(db.users) ==> Wf(r.db.users)
    ensures r.db.feedback == db.feedback && r.db.midnight == db.midnight
  {
    if command == "stat" then Reaction(db, [Reply(admin, StatText(db.users))])
    else if command == "broadcast" then Reaction(db, Broadcast(db.users, admin, args))
    else if command == "direct" then Reaction(db, Direct(admin, args))
    else WithUsers(db, Limit(db.users, admin, args))
  }

  /**
   * `processIncomingCommand(chatID, command, arguments)`. `sha` is SHA-256, used by `start`.
   */
  function ProcessCommand(db: Db, cfg: ServerConfig.Config, sha: Subscription.Sha256,
                          chat: int, command: string, args: string): (r: Reaction)
    requires Wf(db.users)
    ensures Wf(r.db.users)
    ensures r.db.midnight == db.midnight
    ensures r.db.feedback == db.feedback || Lower(command) == "feedback"
  {
    var cmd := Lower(command);
    if chat == cfg.adminId && cmd in AdminCommands then AdminCommand(db, cfg.adminId, cmd, args)
    else if cmd == "stop" then WithUsers(db, Subscription.Stop(db.users, chat))
    else if cmd == "feedback" then SendFeedback(db, cfg.adminId, chat, args)
    else if cmd == "start" then WithUsers(db, Subscription.Start(db.users, cfg.deliveredLimit, chat, args, sha))
    else if cmd == "challenge" then
      Reaction(db, [Reply(chat, if args in cfg.challenges then cfg.challenges[args] else UnknownCommand)])
    else if cmd == "help" then Reaction(db, [Outgoing(chat, false, Html, HelpText)])
    else Reaction(db, [Reply(chat, UnknownCommand)])
  }

  /** Only the admin chat can use the admin commands; for anyone else they are unknown. */
  lemma AdminCommandsOnlyForAdmin(db: Db, cfg: ServerConfig.Config, sha: Subscription.Sha256,
                                  chat: int, command: string, args: string)
    requires Wf(db.users) && chat != cfg.adminId && Lower(command) in AdminCommands
    ensures ProcessCommand(db, cfg, sha, chat, command, args) == Reaction(db, [Reply(chat, UnknownCommand)])
  {
  }

  /** Commands are case-insensitive: a command behaves as its lower-case spelling. */
  lemma CommandCaseInsensitive(db: Db, cfg: ServerConfig.Config, sha: Subscription.Sha256,
                               chat: int, command: string, args: string)
    requires Wf(db.users)
    ensures ProcessCommand(db, cfg, sha, chat, command, args) == ProcessCommand(db, cfg, sha, chat, Lower(command), args)
  {
    LowerIdempotent(command);
  }

  /** `/challenge` answers the configured reply for its argument, and "Unknown command" for any other. */
  lemma ChallengeAnswers(db: Db, cfg: ServerConfig.Config, sha: Subscription.Sha256, chat: int, args: string)
    requires Wf(db.users)
    ensures var r := ProcessCommand(db, cfg, sha, chat, "challenge", args);
            && r.db == db
            && (args in cfg.challenges ==> r.sent == [Reply(chat, cfg.challenges[args])])
            && (args !in cfg.challenges ==> r.sent == [Reply(chat, UnknownCommand)])
  {
    assert Lower("challenge") == "challenge";
    assert "challenge" !in AdminCommands && "challenge" != "stop" && "challenge" != "feedback" && "challenge" != "start";
    assert ProcessCommand(db, cfg, sha, chat, "challenge", args)
        == Reaction(db, [Reply(chat, if args in cfg.challenges then cfg.challenges[args] else UnknownCommand)]);
  }

  /** `/stop` revokes the sender's subscription, whoever sends it, the admin included. */
  lemma StopRevokes(db: Db, cfg: ServerConfig.Config, sha: Subscription.Sha256, chat: int, command: string, args: string)
    requires Wf(db.users) && Lower(command) == "stop"
    ensures var r := ProcessCommand(db, cfg, sha, chat, command, args);
            Subscription.KeyForChat(r.db.users, chat).None? && r.sent == [Reply(chat, Subscription.AccessRevoked)]
  {
  }

  /** `ourID`: the bot's own id is the number before the first colon of its token; `None` is a panic. */
  function OurId(token: string): (r: Option<int>)
    ensures r.Some? ==> MinInt64 <= r.value <= MaxInt64
  {
    match IndexOf(token, ':')
    case None => None
    case Some(i) =>
      match ParseInt(token[..i])
      case Parsed(v) => Some(v)
      case _ => None
  }

  /** Round trip: a token "<id>:<secret>" yields the id, whatever the secret. */
  lemma OurIdRoundTrip(id: int, secret: string)
    requires MinInt64 <= id <= MaxInt64
    ensures OurId(FormatInt(id) + ":" + secret) == Some(id)
  {
    FormatIntChars(id, ':');
    FormatParseRoundTrip(id);
    SplitFirstOf(FormatInt(id), ':', secret);
  }

  /** `ourID` panics exactly when the token has no colon or the part before it is not a 64-bit decimal. */
  lemma OurIdFails(token: string)
    ensures OurId(token).None? <==>
            (':' !in token || forall v :: !DenotesInt64(token[..IndexOf(token, ':').value], v))
  {
    if ':' in token {
      var head := token[..IndexOf(token, ':').value];
      OurIdHead(token);
      ParseIntRejects(head);
    }
  }

  /** `ourID` fails on a token with a colon exactly when `ParseInt` fails on the part before it. */
  lemma OurIdHead(token: string)
    requires ':' in token
    ensures OurId(token).None? <==> !ParseInt(token[..IndexOf(token, ':').value]).Parsed?
  {
  }
}
