/** The entities the parser writes and the three stores it appends to:
    users, conversations and messages, plus the persistent user database
    that appendUser and appendConversation consult by id. */
module Stores {

  datatype Option<T> = None | Some(value: T)

  /** A UUID. UUID.nameUUIDFromBytes(name) gives a name-based (version 3)
      id, UUID.randomUUID() a random (version 4) one; the two never
      coincide. Name-based ids are injective in the name; random ids are
      drawn from a counter, so each one differs from all drawn before. */
  datatype Uuid = NameUuid(name: string) | RandomUuid(serial: nat)

  datatype User = User(id: Uuid, name: string, password: string)

  datatype Conversation = Conversation(id: Uuid, ownerId: Uuid, title: string)

  datatype Message = Message(id: Uuid, conversationId: Uuid, authorId: Uuid, content: string)

  /** The user every act line and every stage direction hands the floor to. */
  const Narrator: string := "NARRATOR"

  /** Everything the parser reads and writes: the user store (in insertion
      order) and the persistent user database keyed by id, the
      conversation and message stores, the servlet fields currentUser,
      currentConversation and currentTitle, and the next random id. */
  datatype State = State(
    users: seq<User>,
    userDb: map<Uuid, User>,
    conversations: seq<Conversation>,
    messages: seq<Message>,
    currentUser: Option<User>,
    currentConversation: Option<Conversation>,
    currentTitle: string,
    serial: nat)

  /** A freshly initialised servlet: empty stores, no current user or
      conversation, the title chosen for the upload. */
  function Initial(title: string): (s: State)
    ensures s.users == [] && s.conversations == [] && s.messages == []
    ensures s.currentUser == None && s.currentConversation == None
  {
    State([], map[], [], [], None, None, title, 0)
  }

  /** getUserFromPDatabase, with the EntityNotFoundException as None. */
  function Lookup(db: map<Uuid, User>, id: Uuid): (r: Option<User>)
    ensures r.Some? <==> id in db
    ensures r.Some? ==> r.value == db[id]
  {
    if id in db then Some(db[id]) else None
  }

  /** The ids of the conversations in a store. */
  function ConversationIds(cs: seq<Conversation>): set<Uuid> {
    set c | c in cs :: c.id
  }

  /** No two conversations of a store share an id. */
  predicate DistinctIds(cs: seq<Conversation>) {
    forall i, j | 0 <= i < j < |cs| :: cs[i].id != cs[j].id
  }

  lemma ConversationIdsAppend(cs: seq<Conversation>, c: Conversation)
    ensures ConversationIds(cs + [c]) == ConversationIds(cs) + {c.id}
  {
    assert forall d :: d in cs + [c] <==> d in cs || d == c;
  }

  /** A random id drawn before the counter reached `serial`. */
  predicate Issued(id: Uuid, serial: nat) {
    id.RandomUuid? ==> id.serial < serial
  }

  /** `u` is the user the database holds under `u`'s id. */
  predicate Registered(db: map<Uuid, User>, u: User) {
    u.id in db && db[u.id] == u
  }

  /** The database stores each user under its own id, and a name-based id
      under the name it was derived from. */
  predicate DbConsistent(db: map<Uuid, User>) {
    forall id | id in db :: db[id].id == id && (id.NameUuid? ==> db[id].name == id.name)
  }

  /** The invariant of the stores: every user of the user store is in the
      database, every conversation has a known owner, every message a known
      author and an existing conversation, the current user and
      conversation are stored ones, and every random id was issued. */
  ghost predicate Inv(s: State) {
    DbConsistent(s.userDb)
    && (forall i | 0 <= i < |s.users| :: Registered(s.userDb, s.users[i]))
    && (forall i | 0 <= i < |s.conversations| ::
          s.conversations[i].ownerId in s.userDb && Issued(s.conversations[i].id, s.serial))
    && DistinctIds(s.conversations)
    && (forall i | 0 <= i < |s.messages| ::
          s.messages[i].authorId in s.userDb
          && s.messages[i].conversationId in ConversationIds(s.conversations)
          && Issued(s.messages[i].id, s.serial))
    && (s.currentUser.Some? ==> Registered(s.userDb, s.currentUser.value))
    && (s.currentConversation.Some? ==> s.currentConversation.value in s.conversations)
  }

  /** `t` extends `s`: every store only grew, nothing stored was removed or
      changed, the title is the same and the id counter did not go back. */
  predicate Extends(s: State, t: State) {
    s.users <= t.users
    && s.conversations <= t.conversations
    && s.messages <= t.messages
    && (forall id | id in s.userDb :: id in t.userDb && t.userDb[id] == s.userDb[id])
    && s.currentTitle == t.currentTitle
    && s.serial <= t.serial
  }

  lemma InitialInv(title: string)
    ensures Inv(Initial(title))
  {
  }
}
