/** The play-script parser of AdminServlet as a function of the state:
    one function per servlet method (appendUser, appendMessage,
    appendConversation, changeToNewUser, the per-line body of readFile's
    loop, and readFile), and the lemmas that say what each one does.

    A NullPointerException in the source (appendMessage without a current
    conversation or user, appendConversation without a NARRATOR in the
    database) is `thrown`: it aborts readFile, and whatever the stores
    received before it stays there. */
module ScriptParser {
  import opened Stores
  import opened LineClassifier

  /** The state after a servlet method, and whether it threw. */
  datatype Step = Step(state: State, thrown: bool)

  /** The state after one or more lines, the pending text (readFile's
      charactersWord), and whether a line threw. */
  datatype Parsed = Parsed(state: State, buffer: string, thrown: bool)

  /** The user appendUser creates on a lookup miss. */
  function NewUser(name: string): User {
    User(NameUuid(name), name, "password")
  }

  /** appendUser: look the name-based id up; on a hit the stored user
      becomes current, on a miss a new user is added and becomes current. */
  function AppendUser(s: State, name: string): State {
    match Lookup(s.userDb, NameUuid(name))
    case Some(found) => s.(currentUser := Some(found))
    case None =>
      var user := NewUser(name);
      s.(users := s.users + [user], userDb := s.userDb[user.id := user], currentUser := Some(user))
  }

  /** appendMessage: a message with a fresh id, in the current
      conversation, by the current user. */
  function AppendMessage(s: State, content: string): Step {
    if s.currentConversation.None? || s.currentUser.None? then Step(s, true)
    else
      var m := Message(RandomUuid(s.serial), s.currentConversation.value.id, s.currentUser.value.id, content);
      Step(s.(messages := s.messages + [m], serial := s.serial + 1), false)
  }

  /** appendConversation: a conversation with a fresh id, owned by the
      NARRATOR found in the database, titled currentTitle + "_" + line; it
      becomes current. */
  function AppendConversation(s: State, line: string): Step {
    match Lookup(s.userDb, NameUuid(Narrator))
    case None => Step(s, true)
    case Some(narrator) =>
      var c := Conversation(RandomUuid(s.serial), narrator.id, s.currentTitle + "_" + line);
      Step(s.(conversations := s.conversations + [c], currentConversation := Some(c), serial := s.serial + 1), false)
  }

  /** changeToNewUser: with a current user, a non-empty pending text is
      first saved as that user's message; then `newUser` becomes current. */
  function ChangeToNewUser(s: State, charactersWord: string, newUser: string): Step {
    if s.currentUser.Some? && charactersWord != "" then
      var flushed := AppendMessage(s, charactersWord);
      if flushed.thrown then flushed else Step(AppendUser(flushed.state, newUser), false)
    else
      Step(AppendUser(s, newUser), false)
  }

  /** One iteration of readFile's loop: the kind of the line picks the
      branch. */
  function ReadLine(s: State, charactersWord: string, line: string): Parsed {
    match Classify(line)
    case ActMarker =>
      var switched := ChangeToNewUser(s, charactersWord, Narrator);
      if switched.thrown then Parsed(switched.state, charactersWord, true)
      else
        var started := AppendConversation(switched.state, line);
        Parsed(started.state, "", started.thrown)
    case SceneMarker =>
      var switched := ChangeToNewUser(s, charactersWord, Narrator);
      Parsed(switched.state, if switched.thrown then charactersWord else line, switched.thrown)
    case SpeakerCue(name) =>
      var switched := ChangeToNewUser(s, charactersWord, name);
      Parsed(switched.state, if switched.thrown then charactersWord else "", switched.thrown)
    case StageDirection =>
      var switched := ChangeToNewUser(s, charactersWord, Narrator);
      Parsed(switched.state, if switched.thrown then charactersWord else line, switched.thrown)
    case Dialogue =>
      Parsed(s, charactersWord + " " + line, false)
  }

  /** readFile's loop over the remaining lines; the first line that throws
      ends it. */
  function ReadLines(s: State, charactersWord: string, lines: seq<string>): Parsed
    decreases |lines|
  {
    if lines == [] then Parsed(s, charactersWord, false)
    else
      var p := ReadLine(s, charactersWord, lines[0]);
      if p.thrown then p else ReadLines(p.state, p.buffer, lines[1..])
  }

  /** The loop over lines[i..] is line i, then, unless it threw, the loop
      over lines[i + 1..]. */
  lemma ReadLinesStep(s: State, charactersWord: string, lines: seq<string>, i: nat)
    requires i < |lines|
    ensures var p := ReadLine(s, charactersWord, lines[i]);
      ReadLines(s, charactersWord, lines[i..]) == if p.thrown then p else ReadLines(p.state, p.buffer, lines[i + 1..])
  {
    assert lines[i..][0] == lines[i] && lines[i..][1..] == lines[i + 1..];
  }

  /** readFile: the loop, then one unconditional appendMessage of the
      pending text. */
  function ReadFile(s: State, lines: seq<string>): Step {
    var p := ReadLines(s, "", lines);
    if p.thrown then Step(p.state, true) else AppendMessage(p.state, p.buffer)
  }

  /** The message a flush appends: the pending text, by the user being
      replaced, in the current conversation. */
  function Flushed(s: State, text: string): Message
    requires s.currentUser.Some? && s.currentConversation.Some?
  {
    Message(RandomUuid(s.serial), s.currentConversation.value.id, s.currentUser.value.id, text)
  }

  // ---------------------------------------------------------------------
  // User resolution

  /** appendUser always leaves a current user with the name-based id of
      `name` and that name; it adds a user (with that id) exactly when the
      database has none, and touches nothing else. */
  lemma ResolveUser(s: State, name: string)
    requires DbConsistent(s.userDb)
    ensures var t := AppendUser(s, name);
      && t.currentUser.Some?
      && t.currentUser.value.id == NameUuid(name)
      && t.currentUser.value.name == name
      && Registered(t.userDb, t.currentUser.value)
      && DbConsistent(t.userDb)
      && (NameUuid(name) in s.userDb ==> t.users == s.users && t.userDb == s.userDb)
      && (NameUuid(name) !in s.userDb ==>
            t.users == s.users + [NewUser(name)] && t.userDb == s.userDb[NameUuid(name) := NewUser(name)])
      && t.conversations == s.conversations && t.messages == s.messages
      && t.currentConversation == s.currentConversation && t.serial == s.serial
      && t.currentTitle == s.currentTitle
  {
  }

  /** Resolving the same name twice adds at most one user: the second call
      changes nothing. */
  lemma ResolveUserIdempotent(s: State, name: string)
    ensures AppendUser(AppendUser(s, name), name) == AppendUser(s, name)
    ensures |AppendUser(AppendUser(s, name), name).users| <= |s.users| + 1
  {
  }

  // ---------------------------------------------------------------------
  // Flush-then-switch

  /** changeToNewUser appends exactly one message when there is a current
      user and the pending text is not "" (exact equality, whitespace
      counts), and then only with a current conversation (else it throws
      and nothing changes). The message carries the pending text, the
      replaced user as author and the current conversation. In every other
      case no message is appended. Unless it threw, `newUser` ends current. */
  lemma FlushThenSwitch(s: State, charactersWord: string, newUser: string)
    requires Inv(s)
    ensures var r := ChangeToNewUser(s, charactersWord, newUser);
      var flushes := s.currentUser.Some? && charactersWord != "";
      && (r.thrown <==> flushes && s.currentConversation.None?)
      && (r.thrown ==> r.state == s)
      && (!r.thrown ==>
            && r.state.messages == s.messages + (if flushes then [Flushed(s, charactersWord)] else [])
            && r.state.currentUser.Some?
            && r.state.currentUser.value.id == NameUuid(newUser)
            && r.state.currentUser.value.name == newUser
            && r.state.conversations == s.conversations
            && r.state.currentConversation == s.currentConversation)
  {
    if s.currentUser.Some? && charactersWord != "" && s.currentConversation.Some? {
      ResolveUser(AppendMessage(s, charactersWord).state, newUser);
    } else if !(s.currentUser.Some? && charactersWord != "") {
      ResolveUser(s, newUser);
    }
  }

  // ---------------------------------------------------------------------
  // One line of each kind

  /** An ACT line flushes the pending text into the previous conversation,
      makes NARRATOR current with an empty buffer, and appends exactly one
      new conversation, with a fresh id, owned by NARRATOR and titled
      currentTitle + "_" + line, which becomes current. NARRATOR exists by
      the time appendConversation looks it up, so only the flush can throw. */
  lemma ActLine(s: State, charactersWord: string, line: string)
    requires Inv(s)
    requires Classify(line) == ActMarker
    ensures var p := ReadLine(s, charactersWord, line);
      var flushes := s.currentUser.Some? && charactersWord != "";
      && (p.thrown <==> flushes && s.currentConversation.None?)
      && (!p.thrown ==>
            && p.buffer == ""
            && p.state.messages == s.messages + (if flushes then [Flushed(s, charactersWord)] else [])
            && p.state.currentUser.Some? && p.state.currentUser.value.id == NameUuid(Narrator)
            && |p.state.conversations| == |s.conversations| + 1
            && p.state.conversations[..|s.conversations|] == s.conversations
            && var c := p.state.conversations[|s.conversations|];
               && c.title == s.currentTitle + "_" + line
               && c.ownerId == NameUuid(Narrator)
               && c.id !in ConversationIds(s.conversations)
               && p.state.currentConversation == Some(c))
  {
    var switched := ChangeToNewUser(s, charactersWord, Narrator);
    FlushThenSwitch(s, charactersWord, Narrator);
    if !switched.thrown {
      ChangeToNewUserInv(s, charactersWord, Narrator);
      var t := switched.state;
      assert NameUuid(Narrator) in t.userDb;
      var c := Conversation(RandomUuid(t.serial), NameUuid(Narrator), t.currentTitle + "_" + line);
      assert (t.conversations + [c])[..|s.conversations|] == s.conversations;
      assert c.id !in ConversationIds(s.conversations) by {
        forall d | d in s.conversations ensures d.id != c.id {
          var i :| 0 <= i < |s.conversations| && s.conversations[i] == d;
          assert Issued(s.conversations[i].id, s.serial);
        }
      }
    }
  }

  /** A SCENE line or a stage direction flushes and switches to NARRATOR,
      like a cue, and then the line itself becomes the pending text; no
      conversation is created. */
  lemma NarratorLine(s: State, charactersWord: string, line: string)
    requires Inv(s)
    requires Classify(line) == SceneMarker || Classify(line) == StageDirection
    ensures var p := ReadLine(s, charactersWord, line);
      var flushes := s.currentUser.Some? && charactersWord != "";
      && (p.thrown <==> flushes && s.currentConversation.None?)
      && (!p.thrown ==>
            && p.buffer == line
            && p.state.messages == s.messages + (if flushes then [Flushed(s, charactersWord)] else [])
            && p.state.currentUser.Some? && p.state.currentUser.value.id == NameUuid(Narrator)
            && p.state.conversations == s.conversations
            && p.state.currentConversation == s.currentConversation)
  {
    FlushThenSwitch(s, charactersWord, Narrator);
  }

  /** A speaker cue flushes, makes the user named by the whole line
      current, and clears the pending text. */
  lemma SpeakerLine(s: State, charactersWord: string, line: string)
    requires Inv(s)
    requires Classify(line).SpeakerCue?
    ensures var p := ReadLine(s, charactersWord, line);
      var flushes := s.currentUser.Some? && charactersWord != "";
      && (p.thrown <==> flushes && s.currentConversation.None?)
      && (!p.thrown ==>
            && p.buffer == ""
            && p.state.messages == s.messages + (if flushes then [Flushed(s, charactersWord)] else [])
            && p.state.currentUser.Some?
            && p.state.currentUser.value.name == line
            && p.state.currentUser.value.id == NameUuid(line)
            && p.state.conversations == s.conversations
            && p.state.currentConversation == s.currentConversation)
  {
    FlushThenSwitch(s, charactersWord, line);
  }

  /** A dialogue line changes no store and no field; it is appended to the
      pending text after a space, even when the pending text is empty. */
  lemma DialogueLine(s: State, charactersWord: string, line: string)
    requires Classify(line) == Dialogue
    ensures ReadLine(s, charactersWord, line) == Parsed(s, charactersWord + " " + line, false)
  {
  }

  // ---------------------------------------------------------------------
  // The invariant and store growth

  lemma AppendUserInv(s: State, name: string)
    requires Inv(s)
    ensures Inv(AppendUser(s, name)) && Extends(s, AppendUser(s, name))
  {
    var t := AppendUser(s, name);
    ResolveUser(s, name);
    if NameUuid(name) !in s.userDb {
      forall i | 0 <= i < |t.users| ensures Registered(t.userDb, t.users[i]) {
        if i < |s.users| {
          assert Registered(s.userDb, s.users[i]);
        }
      }
    }
  }

  lemma AppendMessageInv(s: State, content: string)
    requires Inv(s)
    ensures Inv(AppendMessage(s, content).state) && Extends(s, AppendMessage(s, content).state)
  {
    var r := AppendMessage(s, content);
    if !r.thrown {
      var t := r.state;
      assert s.currentConversation.value.id in ConversationIds(s.conversations);
      forall i | 0 <= i < |t.messages|
        ensures t.messages[i].authorId in t.userDb
        ensures t.messages[i].conversationId in ConversationIds(t.conversations)
        ensures Issued(t.messages[i].id, t.serial)
      {
        if i < |s.messages| {
          assert t.messages[i] == s.messages[i];
        }
      }
    }
  }

  lemma AppendConversationInv(s: State, line: string)
    requires Inv(s)
    ensures Inv(AppendConversation(s, line).state) && Extends(s, AppendConversation(s, line).state)
  {
    var r := AppendConversation(s, line);
    if !r.thrown {
      var t := r.state;
      var c := t.conversations[|s.conversations|];
      ConversationIdsAppend(s.conversations, c);
      forall i | 0 <= i < |t.messages|
        ensures t.messages[i].conversationId in ConversationIds(t.conversations)
      {
        assert s.messages[i].conversationId in ConversationIds(s.conversations);
      }
    }
  }

  lemma ChangeToNewUserInv(s: State, charactersWord: string, newUser: string)
    requires Inv(s)
    ensures var t := ChangeToNewUser(s, charactersWord, newUser).state;
      Inv(t) && Extends(s, t)
  {
    if s.currentUser.Some? && charactersWord != "" {
      var flushed := AppendMessage(s, charactersWord);
      AppendMessageInv(s, charactersWord);
      if !flushed.thrown {
        AppendUserInv(flushed.state, newUser);
      }
    } else {
      AppendUserInv(s, newUser);
    }
  }

  lemma ReadLineInv(s: State, charactersWord: string, line: string)
    requires Inv(s)
    ensures var t := ReadLine(s, charactersWord, line).state;
      Inv(t) && Extends(s, t)
  {
    match Classify(line)
    case ActMarker =>
      var switched := ChangeToNewUser(s, charactersWord, Narrator);
      ChangeToNewUserInv(s, charactersWord, Narrator);
      if !switched.thrown {
        AppendConversationInv(switched.state, line);
      }
    case SceneMarker =>
      ChangeToNewUserInv(s, charactersWord, Narrator);
    case SpeakerCue(name) =>
      ChangeToNewUserInv(s, charactersWord, name);
    case StageDirection =>
      ChangeToNewUserInv(s, charactersWord, Narrator);
    case Dialogue =>
  }

  lemma {:induction false} ReadLinesInv(s: State, charactersWord: string, lines: seq<string>)
    requires Inv(s)
    ensures var t := ReadLines(s, charactersWord, lines).state;
      Inv(t) && Extends(s, t)
    decreases |lines|
  {
    if lines != [] {
      var p := ReadLine(s, charactersWord, lines[0]);
      ReadLineInv(s, charactersWord, lines[0]);
      if !p.thrown {
        ReadLinesInv(p.state, p.buffer, lines[1..]);
      }
    }
  }

  /** readFile keeps the store invariant (every message has a stored author
      and an existing conversation, every conversation a stored owner) and
      only ever appends: nothing already stored is removed or modified,
      whether or not it threw. */
  lemma ReadFileInv(s: State, lines: seq<string>)
    requires Inv(s)
    ensures var t := ReadFile(s, lines).state;
      Inv(t) && Extends(s, t)
  {
    var p := ReadLines(s, "", lines);
    ReadLinesInv(s, "", lines);
    if !p.thrown {
      AppendMessageInv(p.state, p.buffer);
    }
  }

  // ---------------------------------------------------------------------
  // Conversation partitioning and the end of the stream

  /** From `s` to `t` the current conversation stayed `c`, no conversation
      was added, and the messages only grew, each new one in `c`. */
  predicate StaysIn(s: State, t: State, c: Conversation) {
    && t.currentConversation == Some(c)
    && t.conversations == s.conversations
    && s.messages <= t.messages
    && forall k | |s.messages| <= k < |t.messages| :: t.messages[k].conversationId == c.id
  }

  lemma StaysInTransitive(s: State, t: State, u: State, c: Conversation)
    requires StaysIn(s, t, c) && StaysIn(t, u, c)
    ensures StaysIn(s, u, c)
  {
    forall k | |s.messages| <= k < |u.messages| ensures u.messages[k].conversationId == c.id {
      if k < |t.messages| {
        assert u.messages[k] == t.messages[k];
      }
    }
  }

  /** changeToNewUser with a current conversation: appends to nothing but
      the user and message stores, and only into that conversation. */
  lemma SwitchStaysInConversation(s: State, charactersWord: string, newUser: string, c: Conversation)
    requires s.currentConversation == Some(c)
    ensures var r := ChangeToNewUser(s, charactersWord, newUser);
      !r.thrown && r.state.currentUser.Some? && StaysIn(s, r.state, c)
  {
  }

  /** A line that is not an act line keeps the current conversation and
      puts every message it appends into it. */
  lemma NonActLineStaysInConversation(s: State, charactersWord: string, line: string, c: Conversation)
    requires s.currentConversation == Some(c)
    requires !Contains(line, "ACT")
    ensures var p := ReadLine(s, charactersWord, line);
      !p.thrown && StaysIn(s, p.state, c)
  {
    CueLine(line);
    match Classify(line)
    case SceneMarker =>
      SwitchStaysInConversation(s, charactersWord, Narrator, c);
    case SpeakerCue(name) =>
      SwitchStaysInConversation(s, charactersWord, name, c);
    case StageDirection =>
      SwitchStaysInConversation(s, charactersWord, Narrator, c);
    case Dialogue =>
  }

  /** Between two act lines the current conversation stays the one the
      last act line opened, and every message appended goes into it. */
  lemma {:induction false} NoActKeepsConversation(s: State, charactersWord: string, lines: seq<string>, c: Conversation)
    requires s.currentConversation == Some(c)
    requires forall i | 0 <= i < |lines| :: !Contains(lines[i], "ACT")
    ensures var p := ReadLines(s, charactersWord, lines);
      !p.thrown && StaysIn(s, p.state, c)
    decreases |lines|
  {
    if lines != [] {
      var p := ReadLine(s, charactersWord, lines[0]);
      NonActLineStaysInConversation(s, charactersWord, lines[0], c);
      NoActKeepsConversation(p.state, p.buffer, lines[1..], c);
      StaysInTransitive(s, p.state, ReadLines(p.state, p.buffer, lines[1..]).state, c);
    }
  }

  /** With a current user and a current conversation no line throws, and
      both stay current. */
  lemma ReadLineNeverThrows(s: State, charactersWord: string, line: string)
    requires s.currentUser.Some? && s.currentConversation.Some?
    ensures var p := ReadLine(s, charactersWord, line);
      !p.thrown && p.state.currentUser.Some? && p.state.currentConversation.Some?
  {
    var c := s.currentConversation.value;
    match Classify(line)
    case ActMarker =>
      var switched := ChangeToNewUser(s, charactersWord, Narrator);
      SwitchStaysInConversation(s, charactersWord, Narrator, c);
      assert NameUuid(Narrator) in switched.state.userDb;
    case SceneMarker =>
      SwitchStaysInConversation(s, charactersWord, Narrator, c);
    case SpeakerCue(name) =>
      SwitchStaysInConversation(s, charactersWord, name, c);
    case StageDirection =>
      SwitchStaysInConversation(s, charactersWord, Narrator, c);
    case Dialogue =>
  }

  /** Once a user and a conversation are current, no later line can throw,
      and both stay current. */
  lemma {:induction false} ReadLinesNeverThrows(s: State, charactersWord: string, lines: seq<string>)
    requires s.currentUser.Some? && s.currentConversation.Some?
    ensures var p := ReadLines(s, charactersWord, lines);
      !p.thrown && p.state.currentUser.Some? && p.state.currentConversation.Some?
    decreases |lines|
  {
    if lines != [] {
      var p := ReadLine(s, charactersWord, lines[0]);
      ReadLineNeverThrows(s, charactersWord, lines[0]);
      ReadLinesNeverThrows(p.state, p.buffer, lines[1..]);
    }
  }

  /** At the end of the stream exactly one more message is appended, with
      the pending text, even when that text is empty, by the current user
      in the current conversation; with no current user or conversation the
      final appendMessage throws. */
  lemma TerminalFlush(s: State, lines: seq<string>)
    ensures var p := ReadLines(s, "", lines);
      var r := ReadFile(s, lines);
      !p.thrown ==>
        && (r.thrown <==> p.state.currentUser.None? || p.state.currentConversation.None?)
        && (!r.thrown ==> r.state.messages == p.state.messages + [Flushed(p.state, p.buffer)])
  {
  }

  /** A file that begins with an ACT line is read without an exception:
      the buffer is still "" at that line, so nothing is flushed, NARRATOR
      is created or found, and from then on a user and a conversation are
      always current. */
  lemma FileStartingWithAct(s: State, lines: seq<string>)
    requires Inv(s)
    requires lines != [] && Contains(lines[0], "ACT")
    ensures !ReadFile(s, lines).thrown
  {
    CueLine(lines[0]);
    ActLine(s, "", lines[0]);
    var p := ReadLine(s, "", lines[0]);
    ReadLinesNeverThrows(p.state, p.buffer, lines[1..]);
  }
}
