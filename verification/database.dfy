/**
 * The bot's SQLite state as values: the `users` table as a sequence of rows in scan order,
 * the single-row `midnight` table, and the `feedback` table. Queries are modelled by the
 * WHERE clauses the bot actually uses; a `select` without ORDER BY yields the first matching
 * row in scan order. `chat_id` is unique, as the `on conflict(chat_id)` upsert requires.
 */
module Database {
  import opened Basics

  datatype Row = Row(
    chatId: int,
    key: string,
    deleted: bool,
    dailyLimit: int,
    delivered: int,
    deliveredToday: int,
    receivedToday: int)

  type Table = seq<Row>

  datatype Db = Db(users: Table, midnight: Option<int>, feedback: seq<Feedback>)

  datatype Feedback = Feedback(chatId: int, text: string)

  /** The uniqueness of `chat_id`. */
  predicate Wf(t: Table) {
    forall i, j :: 0 <= i < j < |t| ==> t[i].chatId != t[j].chatId
  }

  /** The WHERE clauses of the bot's queries. */
  datatype Where =
    | ChatIs(chat: int)          // where chat_id=?
    | ActiveChat(chat: int)      // where chat_id=? and deleted=0
    | ActiveKey(key: string)     // where key=? and deleted=0
    | Active                     // where deleted=0
    | Delivering                 // where delivered > 0 and deleted=0
    | Everyone                   // no where clause

  predicate Matches(w: Where, r: Row) {
    match w
    case ChatIs(c) => r.chatId == c
    case ActiveChat(c) => r.chatId == c && !r.deleted
    case ActiveKey(k) => r.key == k && !r.deleted
    case Active => !r.deleted
    case Delivering => r.delivered > 0 && !r.deleted
    case Everyone => true
  }

  /** The SET clauses of the bot's updates. */
  datatype Assign =
    | IncReceivedToday            // received_today=received_today+1
    | IncDeliveredToday           // delivered_today=delivered_today+1
    | IncDelivered                // delivered=delivered+1, delivered_today=delivered_today+1
    | MarkDeleted                 // deleted=1
    | SetDailyLimit(limit: int)   // daily_limit=?
    | ResetToday                  // delivered_today=0, received_today=0

  function Apply(a: Assign, r: Row): (r': Row)
    ensures r'.chatId == r.chatId
  {
    match a
    case IncReceivedToday => r.(receivedToday := r.receivedToday + 1)
    case IncDeliveredToday => r.(deliveredToday := r.deliveredToday + 1)
    case IncDelivered => r.(delivered := r.delivered + 1, deliveredToday := r.deliveredToday + 1)
    case MarkDeleted => r.(deleted := true)
    case SetDailyLimit(n) => r.(dailyLimit := n)
    case ResetToday => r.(deliveredToday := 0, receivedToday := 0)
  }

  /** `update users set <a> where <w>`: every matching row changes, no other row does. */
  function Update(t: Table, a: Assign, w: Where): (r: Table)
    ensures |r| == |t|
    ensures forall i :: 0 <= i < |t| ==> r[i] == if Matches(w, t[i]) then Apply(a, t[i]) else t[i]
    ensures Wf(t) ==> Wf(r)
  {
    seq(|t|, i requires 0 <= i < |t| => if Matches(w, t[i]) then Apply(a, t[i]) else t[i])
  }

  /** `select count(*) ... where <w>`, which is also the rows-affected count of an update. */
  function CountWhere(t: Table, w: Where): (n: nat)
    ensures n <= |t|
    ensures n == 0 <==> forall i :: 0 <= i < |t| ==> !Matches(w, t[i])
  {
    if t == [] then 0
    else (if Matches(w, t[0]) then 1 else 0) + CountWhere(t[1..], w)
  }

  /** The first matching row in scan order, as `query.Next()` returns it. */
  function Select(t: Table, w: Where): (r: Option<nat>)
    ensures r.Some? ==> r.value < |t| && Matches(w, t[r.value])
    ensures r.Some? ==> forall j :: 0 <= j < r.value ==> !Matches(w, t[j])
    ensures r.None? <==> forall j :: 0 <= j < |t| ==> !Matches(w, t[j])
  {
    if t == [] then None
    else if Matches(w, t[0]) then Some(0)
    else match Select(t[1..], w)
      case None => None
      case Some(i) => Some(i + 1)
  }

  /** With unique chat ids, a row with a given chat id is the only one. */
  lemma OnlyRowOfChat(t: Table, i: nat, j: nat)
    requires Wf(t) && i < |t| && j < |t|
    requires t[i].chatId == t[j].chatId
    ensures i == j
  {
  }

  /** With unique chat ids, at most one row has a given chat id. */
  lemma {:induction false} CountChatAtMostOne(t: Table, chat: int)
    requires Wf(t)
    ensures CountWhere(t, ChatIs(chat)) <= 1
    ensures CountWhere(t, ChatIs(chat)) == 1 <==> Select(t, ChatIs(chat)).Some?
  {
    if t != [] {
      assert Wf(t[1..]);
      CountChatAtMostOne(t[1..], chat);
      if t[0].chatId == chat {
        assert forall i :: 0 <= i < |t[1..]| ==> t[1..][i] == t[i + 1];
      }
    }
  }

  /** The table after updating one row by index, leaving the others alone. */
  function UpdateAt(t: Table, i: nat, a: Assign): (r: Table)
    requires i < |t|
    ensures |r| == |t| && r[i] == Apply(a, t[i])
    ensures forall j :: 0 <= j < |t| && j != i ==> r[j] == t[j]
  {
    t[i := Apply(a, t[i])]
  }

  /** Under unique chat ids, updating by chat id is updating that one row. */
  lemma UpdateChatIsUpdateAt(t: Table, i: nat, a: Assign)
    requires Wf(t) && i < |t|
    ensures Update(t, a, ChatIs(t[i].chatId)) == UpdateAt(t, i, a)
  {
    var r := Update(t, a, ChatIs(t[i].chatId));
    forall j | 0 <= j < |t|
      ensures r[j] == UpdateAt(t, i, a)[j]
    {
      if j != i { assert t[j].chatId != t[i].chatId; }
    }
  }

  /** Only the counters can differ between two tables: same rows, same ids, keys, flags and limits. */
  predicate SameAccounts(t: Table, t': Table) {
    && |t| == |t'|
    && forall i :: 0 <= i < |t| ==>
         t'[i].chatId == t[i].chatId && t'[i].key == t[i].key
         && t'[i].deleted == t[i].deleted && t'[i].dailyLimit == t[i].dailyLimit
  }

  /** Counter updates never touch who is subscribed, with which key, or their limits. */
  lemma CounterUpdatesKeepAccounts(t: Table, a: Assign, w: Where)
    requires a.IncReceivedToday? || a.IncDeliveredToday? || a.IncDelivered? || a.ResetToday?
    ensures SameAccounts(t, Update(t, a, w))
  {
  }

  /** `select coalesce(sum(<column>), 0) from users`, with the column given as `f`. */
  function Sum(t: Table, f: Row -> int): int {
    if t == [] then 0 else f(t[0]) + Sum(t[1..], f)
  }

  /** The `delivered` column. */
  function TotalDelivered(r: Row): int { r.delivered }

  /** The `delivered_today` column. */
  function TodayDelivered(r: Row): int { r.deliveredToday }

  /** Changing one row changes the sum by that row's difference. */
  lemma {:induction false} SumUpdateAt(t: Table, i: nat, a: Assign, f: Row -> int)
    requires i < |t|
    ensures Sum(UpdateAt(t, i, a), f) == Sum(t, f) - f(t[i]) + f(Apply(a, t[i]))
  {
    var r := UpdateAt(t, i, a);
    if i == 0 {
      assert r[1..] == t[1..];
    } else {
      assert r[1..] == UpdateAt(t[1..], i - 1, a);
      SumUpdateAt(t[1..], i - 1, a, f);
    }
  }

  /** Every active row that has delivered something is an active row. */
  lemma {:induction false} DeliveringAtMostActive(t: Table)
    ensures CountWhere(t, Delivering) <= CountWhere(t, Active)
  {
    if t != [] {
      DeliveringAtMostActive(t[1..]);
    }
  }
}
