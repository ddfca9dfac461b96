/**
 * The stored chats and study activities, as the controllers use them: a map from chat id to
 * the chat (owner, title, turns) and a map from activity id to the saved artifact. Ids come
 * from counters, so a new record never replaces an old one. `ok` stands for whether the
 * database call succeeds; a failed call leaves the store as it was.
 */
module ChatStore {
  import opened Wrappers
  import opened Conversation

  datatype Role = UserRole | ModelRole

  /** One stored message of a chat. */
  datatype Turn = Turn(role: Role, content: string)

  datatype ChatDoc = ChatDoc(owner: nat, title: string, messages: seq<Turn>)

  datatype ActivityDoc = ActivityDoc(owner: nat, chatId: nat, kind: ArtifactKind, title: string, data: seq<string>)

  /** The two turns one exchange adds: the student's message, then the model's answer. */
  function Exchange(message: string, answer: string): (ts: seq<Turn>)
    ensures |ts| == 2 && ts[0] == Turn(UserRole, message) && ts[1] == Turn(ModelRole, answer)
  {
    [Turn(UserRole, message), Turn(ModelRole, answer)]
  }

  /** Whether `owner` may append to chat `chatId`: it exists and belongs to them. */
  predicate Owns(chats: map<nat, ChatDoc>, chatId: nat, owner: nat) {
    chatId in chats && chats[chatId].owner == owner
  }

  /**
   * The chats after an exchange is pushed onto chat `chatId` on behalf of `owner`: that chat,
   * if it exists and is theirs, gains the user turn and the model turn at its end; a missing or
   * foreign chat, and every other chat, stays as it was.
   */
  function AppendExchange(chats: map<nat, ChatDoc>, chatId: nat, owner: nat, message: string, answer: string): (after: map<nat, ChatDoc>)
    ensures after.Keys == chats.Keys
    ensures forall id :: id in chats && id != chatId ==> after[id] == chats[id]
    ensures !Owns(chats, chatId, owner) ==> after == chats
    ensures Owns(chats, chatId, owner) ==>
              var before := chats[chatId].messages;
              var now := after[chatId].messages;
              && after[chatId].owner == owner && after[chatId].title == chats[chatId].title
              && |now| == |before| + 2 && now[..|before|] == before
              && now[|before|] == Turn(UserRole, message) && now[|before| + 1] == Turn(ModelRole, answer)
  {
    if Owns(chats, chatId, owner) then
      chats[chatId := chats[chatId].(messages := chats[chatId].messages + Exchange(message, answer))]
    else chats
  }

  /** Two exchanges on one owned chat leave its four new turns in request order. */
  lemma TwoExchangesInOrder(chats: map<nat, ChatDoc>, chatId: nat, owner: nat, m1: string, a1: string, m2: string, a2: string)
    requires Owns(chats, chatId, owner)
    ensures var after := AppendExchange(AppendExchange(chats, chatId, owner, m1, a1), chatId, owner, m2, a2);
            after[chatId].messages == chats[chatId].messages + Exchange(m1, a1) + Exchange(m2, a2)
  {
    var once := AppendExchange(chats, chatId, owner, m1, a1);
    assert Owns(once, chatId, owner);
    assert once[chatId].messages == chats[chatId].messages + Exchange(m1, a1);
  }

  /**
   * What persisting one exchange for `owner` does, from chats `before` (next free id `next`)
   * to chats `after`, reporting `saved` as the chat id: with a chat id the exchange is appended
   * to that chat when it is the owner's and the id is echoed; without one a chat holding just
   * this exchange is created under a fresh id, whose id is reported. A failed database call
   * changes nothing.
   */
  ghost predicate SaveEffect(before: map<nat, ChatDoc>, next: nat, after: map<nat, ChatDoc>, saved: Option<nat>,
                             owner: nat, chatId: Option<nat>, title: string, message: string, answer: string, ok: bool)
  {
    if chatId.Some? then
      saved == chatId && after == (if ok then AppendExchange(before, chatId.value, owner, message, answer) else before)
    else if ok then
      saved == Some(next) && next !in before && after == before[next := ChatDoc(owner, title, Exchange(message, answer))]
    else
      saved.None? && after == before
  }

  class Database {
    var chats: map<nat, ChatDoc>
    var activities: map<nat, ActivityDoc>
    var nextChatId: nat
    var nextActivityId: nat

    /** Every stored id was handed out by its counter. */
    ghost predicate Valid()
      reads this
    {
      && (forall id :: id in chats ==> id < nextChatId)
      && (forall id :: id in activities ==> id < nextActivityId)
    }

    constructor()
      ensures Valid()
      ensures chats == map[] && activities == map[]
    {
      chats := map[];
      activities := map[];
      nextChatId := 0;
      nextActivityId := 0;
    }

    /** `Chat.findById(chatId)`, the owner check, two pushes and `save()`. */
    method AppendToChat(chatId: nat, owner: nat, message: string, answer: string, ok: bool)
      requires Valid()
      modifies this
      ensures Valid()
      ensures chats == if ok then AppendExchange(old(chats), chatId, owner, message, answer) else old(chats)
      ensures activities == old(activities)
      ensures nextChatId == old(nextChatId) && nextActivityId == old(nextActivityId)
    {
      if ok && Owns(chats, chatId, owner) {
        var doc := chats[chatId];
        doc := doc.(messages := doc.messages + Exchange(message, answer));
        chats := chats[chatId := doc];
      }
    }

    /**
     * The persistence step of both chat routes for a signed-in user: append to the given chat,
     * or, without a chat id, create one with `title`.
     */
    method SaveExchange(owner: nat, chatId: Option<nat>, title: string, message: string, answer: string, ok: bool)
      returns (saved: Option<nat>)
      requires Valid()
      modifies this
      ensures Valid()
      ensures SaveEffect(old(chats), old(nextChatId), chats, saved, owner, chatId, title, message, answer, ok)
      ensures activities == old(activities) && nextActivityId == old(nextActivityId)
    {
      if chatId.Some? {
        AppendToChat(chatId.value, owner, message, answer, ok);
        saved := chatId;
      } else {
        saved := CreateChat(owner, title, message, answer, ok);
      }
    }

    /** `Chat.create({userId, title, messages: [user, model]})`; the new id, or none on failure. */
    method CreateChat(owner: nat, title: string, message: string, answer: string, ok: bool) returns (id: Option<nat>)
      requires Valid()
      modifies this
      ensures Valid()
      ensures !ok ==> id.None? && chats == old(chats) && nextChatId == old(nextChatId)
      ensures ok ==> id == Some(old(nextChatId)) && id.value !in old(chats)
                     && chats == old(chats)[id.value := ChatDoc(owner, title, Exchange(message, answer))]
      ensures activities == old(activities) && nextActivityId == old(nextActivityId)
    {
      if !ok {
        return None;
      }
      id := Some(nextChatId);
      chats := chats[nextChatId := ChatDoc(owner, title, Exchange(message, answer))];
      nextChatId := nextChatId + 1;
    }

    /** `Activity.create({userId, chatId, type, title, data})`; the new id, or none on failure. */
    method CreateActivity(doc: ActivityDoc, ok: bool) returns (id: Option<nat>)
      requires Valid()
      modifies this
      ensures Valid()
      ensures !ok ==> id.None? && activities == old(activities) && nextActivityId == old(nextActivityId)
      ensures ok ==> id == Some(old(nextActivityId)) && id.value !in old(activities)
                     && activities == old(activities)[id.value := doc]
      ensures chats == old(chats) && nextChatId == old(nextChatId)
    {
      if !ok {
        return None;
      }
      id := Some(nextActivityId);
      activities := activities[nextActivityId := doc];
      nextActivityId := nextActivityId + 1;
    }
  }
}
