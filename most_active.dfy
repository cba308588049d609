/** What getMostActiveUser computes. It visits the conversations in store
    order and, within each, the messages of that conversation in store
    order; it counts messages per author and keeps the author whose count
    first rose above every count seen before. */
module MostActive {
  import opened Stores

  /** MessageStore.getMessagesInConversation: the messages of one
      conversation, in store order. */
  function MessagesIn(ms: seq<Message>, convId: Uuid): (r: seq<Message>)
    ensures forall m | m in r :: m in ms && m.conversationId == convId
    ensures forall m | m in ms && m.conversationId == convId :: m in r
  {
    if ms == [] then []
    else (if ms[0].conversationId == convId then [ms[0]] else []) + MessagesIn(ms[1..], convId)
  }

  /** The messages getMostActiveUser visits, in the order it visits them. */
  function Visited(cs: seq<Conversation>, ms: seq<Message>): (r: seq<Message>)
    ensures forall m | m in r :: m in ms
  {
    if cs == [] then []
    else Visited(cs[..|cs| - 1], ms) + MessagesIn(ms, cs[|cs| - 1].id)
  }

  /** All authors of `vs` are in the database. */
  predicate AuthorsKnown(db: map<Uuid, User>, vs: seq<Message>) {
    forall m | m in vs :: m.authorId in db
  }

  /** The user the database holds for a message's author. For an author
      missing from the database the source gets null, which its HashMap
      counts like any other key; callers exclude that case, and the
      placeholder below is never counted. */
  function AuthorOf(db: map<Uuid, User>, m: Message): User {
    if m.authorId in db then db[m.authorId] else User(m.authorId, "", "")
  }

  /** The author of each visited message, in visiting order. */
  function Authors(db: map<Uuid, User>, vs: seq<Message>): (r: seq<User>)
    ensures |r| == |vs|
  {
    if vs == [] then []
    else Authors(db, vs[..|vs| - 1]) + [AuthorOf(db, vs[|vs| - 1])]
  }

  lemma AuthorsAppend(db: map<Uuid, User>, vs: seq<Message>, m: Message)
    ensures Authors(db, vs + [m]) == Authors(db, vs) + [AuthorOf(db, m)]
  {
    assert (vs + [m])[..|vs|] == vs;
  }

  lemma {:induction false} AuthorsConcat(db: map<Uuid, User>, a: seq<Message>, b: seq<Message>)
    ensures Authors(db, a + b) == Authors(db, a) + Authors(db, b)
    decreases |b|
  {
    if b == [] {
      assert a + b == a;
    } else {
      var b', x := b[..|b| - 1], b[|b| - 1];
      assert b == b' + [x];
      calc {
        Authors(db, a + b);
        { assert a + b == (a + b') + [x]; }
        Authors(db, (a + b') + [x]);
        { AuthorsAppend(db, a + b', x); }
        Authors(db, a + b') + [AuthorOf(db, x)];
        { AuthorsConcat(db, a, b'); }
        Authors(db, a) + Authors(db, b') + [AuthorOf(db, x)];
        { AuthorsAppend(db, b', x); }
        Authors(db, a) + Authors(db, b);
      }
    }
  }

  /** One more conversation visited. */
  lemma VisitedStep(db: map<Uuid, User>, cs: seq<Conversation>, ms: seq<Message>, i: nat, seen: seq<User>, seen': seq<User>)
    requires i < |cs|
    requires seen == Authors(db, Visited(cs[..i], ms))
    requires seen' == seen + Authors(db, MessagesIn(ms, cs[i].id))
    ensures seen' == Authors(db, Visited(cs[..i + 1], ms))
  {
    assert cs[..i + 1][..i] == cs[..i];
    AuthorsConcat(db, Visited(cs[..i], ms), MessagesIn(ms, cs[i].id));
  }

  /** How many entries of `us` are `u`. */
  function Count(us: seq<User>, u: User): nat {
    if us == [] then 0
    else Count(us[..|us| - 1], u) + (if us[|us| - 1] == u then 1 else 0)
  }

  /** Entry k names the author getMostActiveUser returns: their final
      count is the largest, they reach it at entry k, and before entry k
      nobody had reached it, so on a tie the first to get there wins. */
  ghost predicate IsFirstLeader(us: seq<User>, k: nat) {
    && k < |us|
    && Count(us[..k + 1], us[k]) == Count(us, us[k])
    && (forall u :: Count(us, u) <= Count(us, us[k]))
    && (forall u :: Count(us[..k], u) < Count(us, us[k]))
  }

  /** A count can only grow along a sequence. */
  lemma {:induction false} CountPrefix(us: seq<User>, k: nat, u: User)
    requires k <= |us|
    ensures Count(us[..k], u) <= Count(us, u)
    decreases |us|
  {
    if k < |us| {
      assert us[..k] == us[..|us| - 1][..k];
      CountPrefix(us[..|us| - 1], k, u);
    } else {
      assert us[..k] == us;
    }
  }

  /** The first leader is unique: the contract of getMostActiveUser fixes
      its result. */
  lemma LeaderUnique(us: seq<User>, k1: nat, k2: nat)
    requires IsFirstLeader(us, k1) && IsFirstLeader(us, k2)
    ensures k1 == k2
  {
    var w1, w2 := us[k1], us[k2];
    assert Count(us, w1) == Count(us, w2);
    if k1 < k2 {
      assert us[..k1 + 1] == us[..k2][..k1 + 1];
      CountPrefix(us[..k2], k1 + 1, w1);
      assert false;
    } else if k2 < k1 {
      assert us[..k2 + 1] == us[..k1][..k2 + 1];
      CountPrefix(us[..k1], k2 + 1, w2);
      assert false;
    }
  }

  lemma CountAppend(us: seq<User>, a: User, u: User)
    ensures Count(us + [a], u) == Count(us, u) + (if a == u then 1 else 0)
  {
    assert (us + [a])[..|us|] == us;
  }

  /** The state of getMostActiveUser's loop after visiting the authors in
      `seen`: `counts` holds each author's count (absent means 0), and
      unless nothing was seen, `maxCount` and `mostActive` are the count
      and the name of the first leader, entry `lead`. */
  ghost predicate Tally(seen: seq<User>, counts: map<User, nat>, maxCount: nat, mostActive: string, lead: nat) {
    && (forall u :: Count(seen, u) == if u in counts then counts[u] else 0)
    && (seen == [] ==> maxCount == 0 && mostActive == "")
    && (seen != [] ==> IsFirstLeader(seen, lead) && maxCount == Count(seen, seen[lead]) && mostActive == seen[lead].name)
  }

  /** The body of getMostActiveUser's inner loop for one message by
      `messageAuthor`: its count goes up by one, and it takes the lead only
      when its new count is strictly greater than the maximum so far. */
  method CountMessage(usersToMessages: map<User, nat>, maxCount: nat, mostActive: string, messageAuthor: User,
                      ghost seen: seq<User>, ghost lead: nat)
    returns (counts': map<User, nat>, maxCount': nat, mostActive': string, ghost lead': nat)
    requires Tally(seen, usersToMessages, maxCount, mostActive, lead)
    ensures Tally(seen + [messageAuthor], counts', maxCount', mostActive', lead')
  {
    counts', maxCount', mostActive', lead' := usersToMessages, maxCount, mostActive, lead;
    if messageAuthor in usersToMessages {
      var prevValue := usersToMessages[messageAuthor];
      counts' := usersToMessages[messageAuthor := prevValue + 1];
      if prevValue + 1 > maxCount {
        maxCount' := prevValue + 1;
        mostActive' := messageAuthor.name;
        lead' := |seen|;
      }
    } else {
      counts' := usersToMessages[messageAuthor := 1];
      if maxCount < 1 {
        maxCount' := 1;
        mostActive' := messageAuthor.name;
        lead' := |seen|;
      }
    }
    TallyAdd(seen, usersToMessages, maxCount, mostActive, lead, messageAuthor, counts', maxCount', mostActive', lead');
  }

  /** What the final tally tells the caller. */
  lemma TallyResult(us: seq<User>, counts: map<User, nat>, maxCount: nat, mostActive: string, lead: nat)
    requires Tally(us, counts, maxCount, mostActive, lead)
    ensures us == [] ==> mostActive == ""
    ensures us != [] ==> exists k: nat :: IsFirstLeader(us, k) && mostActive == us[k].name
  {
  }

  /** getMostActiveUser's inner loop over the messages of one
      conversation: each is counted for the author the database returns. */
  method CountConversation(userDb: map<Uuid, User>, messagesInCurrConvo: seq<Message>,
                           usersToMessages: map<User, nat>, maxCount: nat, mostActive: string,
                           ghost seen: seq<User>, ghost lead: nat)
    returns (counts': map<User, nat>, maxCount': nat, mostActive': string, ghost seen': seq<User>, ghost lead': nat)
    requires AuthorsKnown(userDb, messagesInCurrConvo)
    requires Tally(seen, usersToMessages, maxCount, mostActive, lead)
    ensures seen' == seen + Authors(userDb, messagesInCurrConvo)
    ensures Tally(seen', counts', maxCount', mostActive', lead')
  {
    counts', maxCount', mostActive', seen', lead' := usersToMessages, maxCount, mostActive, seen, lead;
    var j := 0;
    while j < |messagesInCurrConvo|
      invariant 0 <= j <= |messagesInCurrConvo|
      invariant seen' == seen + Authors(userDb, messagesInCurrConvo[..j])
      invariant Tally(seen', counts', maxCount', mostActive', lead')
    {
      var oneMessage := messagesInCurrConvo[j];
      var messageAuthor := Lookup(userDb, oneMessage.authorId).value;
      assert messageAuthor == AuthorOf(userDb, oneMessage);
      counts', maxCount', mostActive', lead' := CountMessage(counts', maxCount', mostActive', messageAuthor, seen', lead');
      AuthorsStep(userDb, messagesInCurrConvo, j, seen, seen');
      seen' := seen' + [messageAuthor];
      j := j + 1;
    }
    assert messagesInCurrConvo[..j] == messagesInCurrConvo;
  }

  /** One more message of a conversation visited. */
  lemma AuthorsStep(db: map<Uuid, User>, ms: seq<Message>, j: nat, seen: seq<User>, seenj: seq<User>)
    requires j < |ms|
    requires seenj == seen + Authors(db, ms[..j])
    ensures seenj + [AuthorOf(db, ms[j])] == seen + Authors(db, ms[..j + 1])
  {
    assert ms[..j + 1] == ms[..j] + [ms[j]];
    AuthorsAppend(db, ms[..j], ms[j]);
  }

  /** One more message by `a`: its count goes up by one, and it takes the
      lead only when its new count is strictly greater than the maximum. */
  lemma TallyAdd(seen: seq<User>, counts: map<User, nat>, maxCount: nat, mostActive: string, lead: nat,
                 a: User, counts': map<User, nat>, maxCount': nat, mostActive': string, lead': nat)
    requires Tally(seen, counts, maxCount, mostActive, lead)
    requires counts' == counts[a := (if a in counts then counts[a] else 0) + 1]
    requires var c := (if a in counts then counts[a] else 0) + 1;
      if c > maxCount then maxCount' == c && mostActive' == a.name && lead' == |seen|
      else maxCount' == maxCount && mostActive' == mostActive && lead' == lead
    ensures Tally(seen + [a], counts', maxCount', mostActive', lead')
  {
    var seen' := seen + [a];
    var c := Count(seen, a) + 1;
    forall u ensures Count(seen', u) == Count(seen, u) + (if a == u then 1 else 0) {
      CountAppend(seen, a, u);
    }
    if c > maxCount {
      assert seen'[..|seen| + 1] == seen';
      assert seen'[..|seen|] == seen;
      assert forall u :: Count(seen, u) <= maxCount;
      assert IsFirstLeader(seen', |seen|);
    } else {
      var w := seen[lead];
      assert a != w;
      assert seen'[..lead + 1] == seen[..lead + 1];
      assert seen'[..lead] == seen[..lead];
      assert IsFirstLeader(seen', lead);
    }
  }

  /** One more conversation counted by getMostActiveUser's outer loop. */
  method CountNextConversation(userDb: map<Uuid, User>, allConversations: seq<Conversation>, allMessages: seq<Message>, i: nat,
                               usersToMessages: map<User, nat>, maxCount: nat, mostActive: string,
                               ghost seen: seq<User>, ghost lead: nat)
    returns (counts': map<User, nat>, maxCount': nat, mostActive': string, ghost seen': seq<User>, ghost lead': nat)
    requires i < |allConversations|
    requires AuthorsKnown(userDb, allMessages)
    requires seen == Authors(userDb, Visited(allConversations[..i], allMessages))
    requires Tally(seen, usersToMessages, maxCount, mostActive, lead)
    ensures seen' == Authors(userDb, Visited(allConversations[..i + 1], allMessages))
    ensures Tally(seen', counts', maxCount', mostActive', lead')
  {
    var currConvo := allConversations[i];
    var messagesInCurrConvo := MessagesIn(allMessages, currConvo.id);
    counts', maxCount', mostActive', seen', lead' :=
      CountConversation(userDb, messagesInCurrConvo, usersToMessages, maxCount, mostActive, seen, lead);
    VisitedStep(userDb, allConversations, allMessages, i, seen, seen');
  }

  /** getMostActiveUser over the stores: "" when no message is visited;
      otherwise the name of the first leader of the visited authors. */
  method MostActiveUser(userDb: map<Uuid, User>, allConversations: seq<Conversation>, allMessages: seq<Message>)
    returns (mostActive: string)
    requires AuthorsKnown(userDb, allMessages)
    ensures var us := Authors(userDb, Visited(allConversations, allMessages));
      && (us == [] ==> mostActive == "")
      && (us != [] ==> exists k: nat :: IsFirstLeader(us, k) && mostActive == us[k].name)
  {
    var usersToMessages: map<User, nat> := map[];
    mostActive := "";
    var maxCount: nat := 0;
    ghost var seen: seq<User> := [];
    ghost var lead: nat := 0;
    var i := 0;
    while i < |allConversations|
      invariant 0 <= i <= |allConversations|
      invariant seen == Authors(userDb, Visited(allConversations[..i], allMessages))
      invariant Tally(seen, usersToMessages, maxCount, mostActive, lead)
    {
      usersToMessages, maxCount, mostActive, seen, lead :=
        CountNextConversation(userDb, allConversations, allMessages, i, usersToMessages, maxCount, mostActive, seen, lead);
      i := i + 1;
    }
    assert allConversations[..i] == allConversations;
    TallyResult(seen, usersToMessages, maxCount, mostActive, lead);
  }

  // ---------------------------------------------------------------------
  // The visited messages are the stored messages

  /** How many messages of `ms` the database attributes to `u`. */
  function Sent(db: map<Uuid, User>, ms: seq<Message>, u: User): nat {
    if ms == [] then 0
    else (if AuthorOf(db, ms[0]) == u then 1 else 0) + Sent(db, ms[1..], u)
  }

  /** `u` has sent at least as many messages of `ms` as anybody. */
  ghost predicate SentMost(db: map<Uuid, User>, ms: seq<Message>, u: User) {
    forall v :: Sent(db, ms, v) <= Sent(db, ms, u)
  }

  lemma {:induction false} SentConcat(db: map<Uuid, User>, a: seq<Message>, b: seq<Message>, u: User)
    ensures Sent(db, a + b, u) == Sent(db, a, u) + Sent(db, b, u)
    decreases |a|
  {
    if a == [] {
      assert a + b == b;
    } else {
      assert (a + b)[0] == a[0] && (a + b)[1..] == a[1..] + b;
      SentConcat(db, a[1..], b, u);
    }
  }

  /** Counting the authors of the visited messages counts the messages
      each author sent. */
  lemma {:induction false} CountIsSent(db: map<Uuid, User>, ms: seq<Message>, u: User)
    ensures Count(Authors(db, ms), u) == Sent(db, ms, u)
    decreases |ms|
  {
    if ms != [] {
      var ms', m := ms[..|ms| - 1], ms[|ms| - 1];
      assert ms == ms' + [m];
      CountIsSent(db, ms', u);
      CountAppend(Authors(db, ms'), AuthorOf(db, m), u);
      SentConcat(db, ms', [m], u);
    }
  }

  /** The messages of `ms` in any conversation whose id is in `ids`, in
      store order. */
  function MessagesInAny(ms: seq<Message>, ids: set<Uuid>): (r: seq<Message>)
    ensures forall m | m in r :: m in ms
  {
    if ms == [] then []
    else (if ms[0].conversationId in ids then [ms[0]] else []) + MessagesInAny(ms[1..], ids)
  }

  lemma {:induction false} NoneInEmpty(ms: seq<Message>)
    ensures MessagesInAny(ms, {}) == []
    decreases |ms|
  {
    if ms != [] {
      NoneInEmpty(ms[1..]);
    }
  }

  lemma {:induction false} AllInAny(ms: seq<Message>, ids: set<Uuid>)
    requires forall m | m in ms :: m.conversationId in ids
    ensures MessagesInAny(ms, ids) == ms
    decreases |ms|
  {
    if ms != [] {
      assert ms[0] in ms;
      assert forall m | m in ms[1..] :: m in ms;
      AllInAny(ms[1..], ids);
    }
  }

  /** Adding one more conversation id adds exactly the messages of that
      conversation to the count. */
  lemma {:induction false} SentSplit(db: map<Uuid, User>, ms: seq<Message>, ids: set<Uuid>, x: Uuid, u: User)
    requires x !in ids
    ensures Sent(db, MessagesInAny(ms, ids + {x}), u)
         == Sent(db, MessagesInAny(ms, ids), u) + Sent(db, MessagesIn(ms, x), u)
    decreases |ms|
  {
    if ms != [] {
      var h := ms[0];
      var hAll := if h.conversationId in ids + {x} then [h] else [];
      var hAny := if h.conversationId in ids then [h] else [];
      var hX := if h.conversationId == x then [h] else [];
      SentConcat(db, hAll, MessagesInAny(ms[1..], ids + {x}), u);
      SentConcat(db, hAny, MessagesInAny(ms[1..], ids), u);
      SentConcat(db, hX, MessagesIn(ms[1..], x), u);
      SentSplit(db, ms[1..], ids, x, u);
    }
  }

  /** Adding one more conversation id adds exactly the messages of that
      conversation. */
  lemma {:induction false} AnySplit(ms: seq<Message>, ids: set<Uuid>, x: Uuid)
    requires x !in ids
    ensures multiset(MessagesInAny(ms, ids + {x}))
         == multiset(MessagesInAny(ms, ids)) + multiset(MessagesIn(ms, x))
    decreases |ms|
  {
    if ms != [] {
      var h, rest := ms[0], ms[1..];
      var hAll := if h.conversationId in ids + {x} then [h] else [];
      var hAny := if h.conversationId in ids then [h] else [];
      var hX := if h.conversationId == x then [h] else [];
      assert MessagesInAny(ms, ids + {x}) == hAll + MessagesInAny(rest, ids + {x});
      assert MessagesInAny(ms, ids) == hAny + MessagesInAny(rest, ids);
      assert MessagesIn(ms, x) == hX + MessagesIn(rest, x);
      assert multiset(hAll) == multiset(hAny) + multiset(hX);
      AnySplit(rest, ids, x);
    }
  }

  /** With distinct conversation ids, the visit holds each message of a
      listed conversation exactly once. */
  lemma {:induction false} VisitedOnce(cs: seq<Conversation>, ms: seq<Message>)
    requires DistinctIds(cs)
    ensures multiset(Visited(cs, ms)) == multiset(MessagesInAny(ms, ConversationIds(cs)))
    decreases |cs|
  {
    if cs == [] {
      assert ConversationIds(cs) == {};
      NoneInEmpty(ms);
    } else {
      var cs', c := cs[..|cs| - 1], cs[|cs| - 1];
      assert cs == cs' + [c];
      assert DistinctIds(cs');
      VisitedOnce(cs', ms);
      ConversationIdsAppend(cs', c);
      assert c.id !in ConversationIds(cs') by {
        forall d | d in cs' ensures d.id != c.id {
          var i :| 0 <= i < |cs'| && cs'[i] == d;
          assert cs[i] == d;
        }
      }
      AnySplit(ms, ConversationIds(cs'), c.id);
    }
  }

  /** In a store that keeps its invariant, getMostActiveUser visits every
      stored message exactly once: the visit is a permutation of the
      message store. */
  lemma VisitedIsStore(s: State)
    requires Inv(s)
    ensures multiset(Visited(s.conversations, s.messages)) == multiset(s.messages)
  {
    VisitedOnce(s.conversations, s.messages);
    forall m | m in s.messages ensures m.conversationId in ConversationIds(s.conversations) {
      var i :| 0 <= i < |s.messages| && s.messages[i] == m;
    }
    AllInAny(s.messages, ConversationIds(s.conversations));
  }

  /** With distinct conversation ids, the visit counts each message of a
      listed conversation once. */
  lemma {:induction false} VisitedSent(db: map<Uuid, User>, cs: seq<Conversation>, ms: seq<Message>, u: User)
    requires DistinctIds(cs)
    ensures Sent(db, Visited(cs, ms), u) == Sent(db, MessagesInAny(ms, ConversationIds(cs)), u)
    decreases |cs|
  {
    if cs == [] {
      assert ConversationIds(cs) == {};
      NoneInEmpty(ms);
    } else {
      var cs', c := cs[..|cs| - 1], cs[|cs| - 1];
      assert cs == cs' + [c];
      assert DistinctIds(cs');
      VisitedSent(db, cs', ms, u);
      ConversationIdsAppend(cs', c);
      assert c.id !in ConversationIds(cs') by {
        forall d | d in cs' ensures d.id != c.id {
          var i :| 0 <= i < |cs'| && cs'[i] == d;
          assert cs[i] == d;
        }
      }
      SentConcat(db, Visited(cs', ms), MessagesIn(ms, c.id), u);
      SentSplit(db, ms, ConversationIds(cs'), c.id, u);
    }
  }

  /** In a store that keeps its invariant, the authors getMostActiveUser
      counts are the authors of the stored messages: each user's count is
      the number of stored messages they sent. */
  lemma VisitedCountsStore(s: State, u: User)
    requires Inv(s)
    ensures Count(Authors(s.userDb, Visited(s.conversations, s.messages)), u) == Sent(s.userDb, s.messages, u)
  {
    CountIsSent(s.userDb, Visited(s.conversations, s.messages), u);
    VisitedSent(s.userDb, s.conversations, s.messages, u);
    forall m | m in s.messages ensures m.conversationId in ConversationIds(s.conversations) {
      var i :| 0 <= i < |s.messages| && s.messages[i] == m;
    }
    AllInAny(s.messages, ConversationIds(s.conversations));
  }

  /** In a store that keeps its invariant, nothing is visited exactly when
      no message is stored, and the first leader of the visit is a user who
      sent at least as many stored messages as anybody. */
  lemma LeaderSentMost(s: State, k: nat)
    requires Inv(s)
    ensures var us := Authors(s.userDb, Visited(s.conversations, s.messages));
      && (us == [] <==> s.messages == [])
      && (IsFirstLeader(us, k) ==> SentMost(s.userDb, s.messages, us[k]))
  {
    var us := Authors(s.userDb, Visited(s.conversations, s.messages));
    if s.messages != [] {
      var u := AuthorOf(s.userDb, s.messages[0]);
      VisitedCountsStore(s, u);
      assert Sent(s.userDb, s.messages, u) >= 1;
    }
    if IsFirstLeader(us, k) {
      forall v ensures Sent(s.userDb, s.messages, v) <= Sent(s.userDb, s.messages, us[k]) {
        VisitedCountsStore(s, v);
        VisitedCountsStore(s, us[k]);
      }
    }
  }
}
