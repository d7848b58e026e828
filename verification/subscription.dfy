/**
 * Binding a Telegram chat to a device key and revoking it (go/smsq/main.go: `keyForChat`,
 * `chatForKey`, `userExists`, `checkKey`, `start`, `stop`). A key is accepted only if it
 * carries proof of work: its double SHA-256 starts with twelve zero bits.
 */
module Subscription {
  import opened Basics
  import opened Database
  import opened Telegram
  import Utf8

  /** A SHA-256 digest: 32 bytes. */
  type Digest = s: seq<byte> | |s| == 32 witness seq(32, _ => 0)

  /** SHA-256, supplied by the caller; nothing is assumed about it. */
  type Sha256 = seq<byte> -> Digest

  /** `keyForChat`: the key of the chat's active subscription, if any. */
  function KeyForChat(t: Table, chat: int): (r: Option<string>)
    ensures r.Some? <==> exists i :: 0 <= i < |t| && t[i].chatId == chat && !t[i].deleted
    ensures r.Some? ==> exists i :: 0 <= i < |t| && t[i].chatId == chat && !t[i].deleted && t[i].key == r.value
  {
    match Select(t, ActiveChat(chat))
    case None => None
    case Some(i) => Some(t[i].key)
  }

  /** A chat bound to a key, and that chat's daily limit: the row `chatForKey` scans. */
  datatype Binding = Binding(chat: int, dailyLimit: int)

  /** `chatForKey`: the first active subscription with this key, if any. */
  function ChatForKey(t: Table, key: string): (r: Option<Binding>)
    ensures r.Some? <==> exists i :: 0 <= i < |t| && t[i].key == key && !t[i].deleted
    ensures r.Some? ==> exists i :: 0 <= i < |t| && t[i].key == key && !t[i].deleted
                                    && t[i].chatId == r.value.chat && t[i].dailyLimit == r.value.dailyLimit
  {
    match Select(t, ActiveKey(key))
    case None => None
    case Some(i) => Some(Binding(t[i].chatId, t[i].dailyLimit))
  }

  /** `userExists`: `select count(*) ... where chat_id=? and deleted=0` is not zero. */
  function UserExists(t: Table, chat: int): (r: bool)
    ensures r <==> exists i :: 0 <= i < |t| && t[i].chatId == chat && !t[i].deleted
  {
    CountWhere(t, ActiveChat(chat)) != 0
  }

  /** A chat exists exactly when it has a key. */
  lemma UserExistsIffKey(t: Table, chat: int)
    ensures UserExists(t, chat) <==> KeyForChat(t, chat).Some?
  {
  }

  /** The two lookups agree: the chat found for a key holds that key. */
  lemma ChatForKeyHasKey(t: Table, key: string)
    requires Wf(t)
    requires ChatForKey(t, key).Some?
    ensures KeyForChat(t, ChatForKey(t, key).value.chat) == Some(key)
  {
    var i := Select(t, ActiveKey(key)).value;
    var j := Select(t, ActiveChat(t[i].chatId)).value;
    assert Matches(ActiveChat(t[i].chatId), t[i]);
    OnlyRowOfChat(t, i, j);
  }

  /** Conversely, a chat's key always finds some active chat. */
  lemma KeyForChatFindsChat(t: Table, chat: int)
    requires KeyForChat(t, chat).Some?
    ensures ChatForKey(t, KeyForChat(t, chat).value).Some?
  {
    var i := Select(t, ActiveChat(chat)).value;
    assert Matches(ActiveKey(t[i].key), t[i]);
  }

  /** The twelve-bit proof of work on a digest: the first byte is zero, and so is the second's high nibble. */
  predicate LeadingZeros12(h: Digest) {
    h[0] == 0 && (h[1] as bv8) & 0xF0 == 0
  }

  /** `checkKey`: SHA-256 applied twice to the key's bytes, then the twelve-bit test. */
  function CheckKey(key: string, sha: Sha256): (ok: bool)
    ensures var h := sha(sha(Utf8.Encode(key))); ok <==> (h[0] as int) * 256 + (h[1] as int) < 16
  {
    var h := sha(sha(Utf8.Encode(key)));
    LeadingZerosMeaning(h);
    LeadingZeros12(h)
  }

  /** The bit test means: the digest, read as a big-endian number, is below 2^244. */
  lemma LeadingZerosMeaning(h: Digest)
    ensures LeadingZeros12(h) <==> (h[0] as int) * 256 + (h[1] as int) < 16
  {
    var b := h[1] as bv8;
    assert (b & 0xF0 == 0) <==> b < 16;
  }

  const AlreadySetUp := "You are already set up!"
  const InstallApp := "Install smsQ application on your phone https://smsq.me"
  const PreviousRevoked := "Your previous subscription is revoked"
  const OtherAccountRevoked := "Subscription on other Telegram account has been revoked"
  const RevokedFromOther := "Your subscription has been revoked from other Telegram account"
  const Congratulations := "Congratulations! You should see here new SMS messages"
  const AccessRevoked := "Access revoked"

  /** The users table after a `start`, and the messages sent. */
  datatype Effect = Effect(users: Table, sent: seq<Outgoing>)

  /**
   * The upsert of `start`: an existing row of the chat takes the key and is undeleted
   * (its limit and counters stay); otherwise a row is added with the configured limit and
   * zero counters.
   */
  function Upsert(t: Table, chat: int, key: string, limit: int): (r: Table)
    requires Wf(t)
    ensures Wf(r)
    ensures KeyForChat(r, chat) == Some(key)
    ensures |r| == |t| || |r| == |t| + 1
    ensures forall i :: 0 <= i < |t| && t[i].chatId != chat ==> r[i] == t[i]
    ensures |r| == |t| + 1 <==> forall i :: 0 <= i < |t| ==> t[i].chatId != chat
    ensures forall i :: 0 <= i < |t| && t[i].chatId == chat ==> r[i] == t[i].(key := key, deleted := false)
    ensures |r| == |t| + 1 ==> r[|t|] == Row(chat, key, false, limit, 0, 0, 0)
  {
    match Select(t, ChatIs(chat))
    case Some(i) =>
      var r := t[i := t[i].(key := key, deleted := false)];
      assert Matches(ActiveChat(chat), r[i]);
      assert forall j :: 0 <= j < |t| && j != i ==> t[j].chatId != chat;
      r
    case None =>
      var r := t + [Row(chat, key, false, limit, 0, 0, 0)];
      assert Matches(ActiveChat(chat), r[|t|]);
      r
  }

  /** Whether `start` with this key rebinds the chat (every other outcome leaves the table alone). */
  predicate StartBinds(t: Table, chat: int, key: string, sha: Sha256) {
    key != "" && CheckKey(key, sha) && KeyForChat(t, chat) != Some(key)
  }

  /**
   * The notices of a rebinding `start`: to the chat if it had another key, and to both chats
   * if the key was bound to another chat.
   */
  function RevocationNotices(t: Table, chat: int, key: string): (sent: seq<Outgoing>)
    ensures forall m :: m in sent ==> !m.notify && m.mode == Raw
    ensures Reply(chat, PreviousRevoked) in sent <==> KeyForChat(t, chat).Some?
    ensures KeyForChat(t, chat).Some? ==> sent[0] == Reply(chat, PreviousRevoked)
    ensures Reply(chat, OtherAccountRevoked) in sent <==>
              ChatForKey(t, key).Some? && ChatForKey(t, key).value.chat != chat
    ensures forall m :: m in sent && m.text == RevokedFromOther ==>
              ChatForKey(t, key).Some? && m.chat == ChatForKey(t, key).value.chat != chat
    ensures ChatForKey(t, key).Some? && ChatForKey(t, key).value.chat != chat ==>
              Reply(ChatForKey(t, key).value.chat, RevokedFromOther) in sent
    ensures forall m :: m in sent ==> m.chat == chat || m.text == RevokedFromOther
  {
    var previous := if KeyForChat(t, chat).Some? then [Reply(chat, PreviousRevoked)] else [];
    var existing := ChatForKey(t, key);
    var other :=
      if existing.Some? && existing.value.chat != chat then
        [Reply(chat, OtherAccountRevoked), Reply(existing.value.chat, RevokedFromOther)]
      else [];
    previous + other
  }

  /**
   * The binding part of `start`, once the key has passed the checks and differs from the
   * chat's own: the notices about revoked subscriptions, the upsert, the congratulation.
   */
  function Rebind(t: Table, deliveredLimit: int, chat: int, key: string): (e: Effect)
    requires Wf(t)
    ensures Wf(e.users) && |e.users| >= |t| && |e.sent| >= 1
    ensures KeyForChat(e.users, chat) == Some(key)
    ensures forall i :: 0 <= i < |t| && t[i].chatId != chat ==> e.users[i] == t[i]
    ensures forall i :: 0 <= i < |t| && t[i].chatId == chat ==> e.users[i] == t[i].(key := key, deleted := false)
    ensures |e.users| == |t| + 1 ==> e.users[|t|] == Row(chat, key, false, deliveredLimit, 0, 0, 0)
    ensures e.sent[|e.sent| - 1] == Reply(chat, Congratulations)
    ensures e.sent[..|e.sent| - 1] == RevocationNotices(t, chat, key)
    ensures forall m :: m in e.sent ==> !m.notify && m.mode == Raw
  {
    Effect(Upsert(t, chat, key, deliveredLimit), RevocationNotices(t, chat, key) + [Reply(chat, Congratulations)])
  }

  /** `start(chatID, key)`. */
  function Start(t: Table, deliveredLimit: int, chat: int, key: string, sha: Sha256): (e: Effect)
    requires Wf(t)
    ensures Wf(e.users) && |e.users| >= |t| && |e.sent| >= 1
    ensures !StartBinds(t, chat, key, sha) ==> e.users == t && |e.sent| == 1
    ensures key == "" && UserExists(t, chat) ==> e.sent == [Reply(chat, AlreadySetUp)]
    ensures key == "" && !UserExists(t, chat) ==> e.sent == [Reply(chat, InstallApp)]
    ensures key != "" && !CheckKey(key, sha) ==> e.sent == [Reply(chat, InstallApp)]
    ensures key != "" && CheckKey(key, sha) && KeyForChat(t, chat) == Some(key) ==>
              e.sent == [Reply(chat, AlreadySetUp)]
    ensures StartBinds(t, chat, key, sha) ==>
              && KeyForChat(e.users, chat) == Some(key)
              && (forall i :: 0 <= i < |t| && t[i].chatId != chat ==> e.users[i] == t[i])
              && (forall i :: 0 <= i < |t| && t[i].chatId == chat ==> e.users[i] == t[i].(key := key, deleted := false))
              && (|e.users| == |t| + 1 ==> e.users[|t|] == Row(chat, key, false, deliveredLimit, 0, 0, 0))
              && e.sent[|e.sent| - 1] == Reply(chat, Congratulations)
              && e.sent[..|e.sent| - 1] == RevocationNotices(t, chat, key)
    ensures forall m :: m in e.sent ==> !m.notify && m.mode == Raw
  {
    if key == "" && UserExists(t, chat) then
      Effect(t, [Reply(chat, AlreadySetUp)])
    else if key == "" || !CheckKey(key, sha) then
      Effect(t, [Reply(chat, InstallApp)])
    else if KeyForChat(t, chat) == Some(key) then
      Effect(t, [Reply(chat, AlreadySetUp)])
    else
      Rebind(t, deliveredLimit, chat, key)
  }

  /** Under unique chat ids, the chat's row is its active row when it is not deleted. */
  lemma SelectActiveChat(t: Table, chat: int, i: nat)
    requires Wf(t) && Select(t, ChatIs(chat)) == Some(i) && !t[i].deleted
    ensures Select(t, ActiveChat(chat)) == Some(i)
  {
    assert Matches(ActiveChat(chat), t[i]);
    forall j | 0 <= j < i ensures !Matches(ActiveChat(chat), t[j]) {
      assert !Matches(ChatIs(chat), t[j]);
    }
  }

  /** `start` changes the table exactly when it binds. */
  lemma StartChangesIffBinds(t: Table, deliveredLimit: int, chat: int, key: string, sha: Sha256)
    requires Wf(t)
    ensures Start(t, deliveredLimit, chat, key, sha).users != t <==> StartBinds(t, chat, key, sha)
  {
    if StartBinds(t, chat, key, sha) {
      var r := Start(t, deliveredLimit, chat, key, sha).users;
      if |r| == |t| {
        var i := Select(t, ChatIs(chat)).value;
        assert r[i] == t[i].(key := key, deleted := false);
        if !t[i].deleted {
          SelectActiveChat(t, chat, i);
          assert t[i].key != key;
        }
        assert r[i] != t[i];
      }
    }
  }

  /** `stop(chatID)`: mark the chat's row deleted and tell the chat. */
  function Stop(t: Table, chat: int): (e: Effect)
    ensures Wf(t) ==> Wf(e.users)
    ensures KeyForChat(e.users, chat) == None
    ensures forall k :: ChatForKey(e.users, k).Some? ==> ChatForKey(e.users, k).value.chat != chat
    ensures |e.users| == |t|
    ensures forall i :: 0 <= i < |t| ==> e.users[i].key == t[i].key && e.users[i].chatId == t[i].chatId
    ensures forall i :: 0 <= i < |t| && t[i].chatId != chat ==> e.users[i] == t[i]
    ensures forall i :: 0 <= i < |t| && t[i].chatId == chat ==> e.users[i] == t[i].(deleted := true)
    ensures e.sent == [Reply(chat, AccessRevoked)]
  {
    Effect(Update(t, MarkDeleted, ChatIs(chat)), [Reply(chat, AccessRevoked)])
  }

  /** After `stop`, the same key binds the chat again. */
  lemma StartAfterStopRebinds(t: Table, deliveredLimit: int, chat: int, key: string, sha: Sha256)
    requires Wf(t)
    requires key != "" && CheckKey(key, sha)
    ensures StartBinds(Stop(t, chat).users, chat, key, sha)
    ensures KeyForChat(Start(Stop(t, chat).users, deliveredLimit, chat, key, sha).users, chat) == Some(key)
  {
  }
}
