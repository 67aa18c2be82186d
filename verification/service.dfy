/**
  The service handlers of handlers/_service.py as they run: a store object
  whose fields are the `data` module's three process-wide maps, updated in
  place, with each handler proved to perform the transition ServiceSpec
  describes.
 */
module Service {
  import opened Wrappers
  import opened Telegram
  import opened Builtins
  import opened ServiceSpec

  class MembershipStore {
    /** `data.chat_users`: chat id to roster of user ids. */
    var chatUsers: map<int, seq<int>>
    /** `data.can_change_name`: chat id to the users allowed to rename. */
    var canChangeName: map<int, seq<int>>
    /** `data.usernames`: user id to display name. */
    var usernames: map<int, string>
    /** How many times the welcome/help handler has been called. */
    ghost var welcomeCalls: nat

    /** The three maps as one value. */
    function Snapshot(): Data
      reads this
    {
      Data(chatUsers, canChangeName, usernames)
    }

    /** A store holding the maps `data` starts with. */
    constructor (chatUsers0: map<int, seq<int>>, canChangeName0: map<int, seq<int>>, usernames0: map<int, string>)
      ensures Snapshot() == Data(chatUsers0, canChangeName0, usernames0)
      ensures welcomeCalls == 0
    {
      chatUsers, canChangeName, usernames := chatUsers0, canChangeName0, usernames0;
      welcomeCalls := 0;
    }

    /**
      The per-message upsert; `isPrivate` is `utils.is_private(chatId)`.
      Only the sender's roster entry and cached name can change.
     */
    method UpdateCache(chatId: int, isPrivate: bool, user: User)
      modifies this
      ensures Snapshot() == Cache(old(Snapshot()), chatId, isPrivate, user)
      ensures canChangeName == old(canChangeName)
      ensures forall c :: c != chatId ==> SameEntry(old(chatUsers), chatUsers, c)
      ensures Valid(old(Snapshot())) ==> Valid(Snapshot())
      ensures welcomeCalls == old(welcomeCalls)
    {
      if !isPrivate && Get(chatUsers, chatId) != None {
        if user.id !in chatUsers[chatId] {
          chatUsers := chatUsers[chatId := chatUsers[chatId] + [user.id]];
        }
        if Some(user.name) != Get(usernames, user.id) {
          usernames := usernames[user.id := user.name];
        }
      }
      if Valid(old(Snapshot())) {
        CachePreservesValid(old(Snapshot()), chatId, isPrivate, user);
      }
    }

    /**
      One service message. `raised` is the exception that escapes the
      handler, if any; the welcome handler is counted when it is called.
     */
    method SvcHandler(msg: Message, botId: int) returns (raised: Option<Error>)
      modifies this
      ensures Snapshot() == Svc(old(Snapshot()), msg, botId).after
      ensures raised == Svc(old(Snapshot()), msg, botId).raised
      ensures raised.Some? ==> Snapshot() == old(Snapshot())
      ensures Valid(old(Snapshot())) ==> Valid(Snapshot())
      ensures welcomeCalls == old(welcomeCalls) + (if Svc(old(Snapshot()), msg, botId).welcomed then 1 else 0)
    {
      var chatId := msg.chatId;
      raised := None;
      if msg.groupChatCreated || (|msg.newMembers| != 0 && HasMember(msg.newMembers, botId)) {
        chatUsers := chatUsers[chatId := []];
        canChangeName := canChangeName[chatId := []];
        welcomeCalls := welcomeCalls + 1;
      } else if |msg.newMembers| != 0 {
        raised := JoinMembers(chatId, msg.newMembers);
      } else if msg.migrateTo.Some? && msg.migrateTo.value != 0 {
        Migrate(chatId, msg.migrateTo.value);
      } else if msg.leftMember.Some? && msg.leftMember.value.id == botId {
        ClearChatData(chatId);
      } else if msg.leftMember.Some? {
        raised := RemoveLeftMember(chatId, msg.leftMember.value);
      }
      SvcErrorChangesNothing(old(Snapshot()), msg, botId);
      if Valid(old(Snapshot())) {
        SvcPreservesValid(old(Snapshot()), msg, botId);
      }
    }

    /**
      The join loop over the new members: a bot ends it, each human is added
      to the roster if absent and its name is cached; a chat without a roster
      raises `KeyError` at the first human.
     */
    method JoinMembers(chatId: int, members: seq<User>) returns (raised: Option<Error>)
      modifies this
      ensures Snapshot() == Join(old(Snapshot()), chatId, members).after
      ensures raised == Join(old(Snapshot()), chatId, members).raised
      ensures welcomeCalls == old(welcomeCalls)
    {
      var i := 0;
      while i < |members|
        invariant 0 <= i <= |members|
        invariant Join(old(Snapshot()), chatId, members) == Join(Snapshot(), chatId, members[i..])
        invariant welcomeCalls == old(welcomeCalls)
      {
        var member := members[i];
        ghost var before := Snapshot();
        assert members[i..][1..] == members[i + 1..];
        if member.isBot {
          return None;
        }
        if chatId !in chatUsers {
          return Some(KeyError);
        }
        if member.id !in chatUsers[chatId] {
          chatUsers := chatUsers[chatId := chatUsers[chatId] + [member.id]];
        }
        usernames := usernames[member.id := member.name];
        assert Snapshot() == AddMember(before, chatId, member);
        i := i + 1;
      }
      return None;
    }

    /** `data.migrate`: both per-chat lists move from `src` to `dst`. */
    method Migrate(src: int, dst: int)
      modifies this
      ensures Snapshot() == Migrated(old(Snapshot()), src, dst)
      ensures welcomeCalls == old(welcomeCalls)
    {
      if src in chatUsers {
        var roster := chatUsers[src];
        chatUsers := (chatUsers - {src})[dst := roster];
      }
      if src in canChangeName {
        var allowed := canChangeName[src];
        canChangeName := (canChangeName - {src})[dst := allowed];
      }
    }

    /** `data.clear_chat_data`: both per-chat lists of the chat are deleted. */
    method ClearChatData(chatId: int)
      modifies this
      ensures Snapshot() == Cleared(old(Snapshot()), chatId)
      ensures welcomeCalls == old(welcomeCalls)
    {
      chatUsers := chatUsers - {chatId};
      canChangeName := canChangeName - {chatId};
    }

    /**
      Another member left: bots are ignored, a missing roster is the caught
      `KeyError`, and a roster without the id is the uncaught `ValueError`;
      otherwise one occurrence of the id is popped.
     */
    method RemoveLeftMember(chatId: int, user: User) returns (raised: Option<Error>)
      modifies this
      ensures Snapshot() == Leave(old(Snapshot()), chatId, user).after
      ensures raised == Leave(old(Snapshot()), chatId, user).raised
      ensures welcomeCalls == old(welcomeCalls)
    {
      if user.isBot {
        return None;
      }
      if chatId !in chatUsers {
        return None;
      }
      var index := IndexOf(chatUsers[chatId], user.id);
      if index.None? {
        return Some(ValueError);
      }
      chatUsers := chatUsers[chatId := RemoveAt(chatUsers[chatId], index.value)];
      return None;
    }
  }

}
