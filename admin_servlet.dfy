/** The servlet object that loads a play script into the chat stores. Its
    fields are the three stores, the user database, the fields
    currentUser, currentConversation and currentTitle, and the counter
    behind UUID.randomUUID(); each method updates them in place and is
    proved to do exactly what the matching function of ScriptParser
    describes, so every lemma proved there holds of the object. */
module AdminServlet {
  import opened Stores
  import opened LineClassifier
  import ScriptParser
  import opened MostActive

  class ScriptLoader {
    var users: seq<User>
    var userDb: map<Uuid, User>
    var conversations: seq<Conversation>
    var messages: seq<Message>
    var currentUser: Option<User>
    var currentConversation: Option<Conversation>
    var currentTitle: string
    var serial: nat

    /** The fields, as a value. */
    function Snapshot(): State
      reads this
    {
      State(users, userDb, conversations, messages, currentUser, currentConversation, currentTitle, serial)
    }

    /** The store invariant holds of the fields. */
    ghost predicate Valid()
      reads this
    {
      Inv(Snapshot())
    }

    /** A servlet attached to the stores it is given (init), with no
        current user or conversation and the title the upload selected. */
    constructor (stores: State, title: string)
      requires Inv(stores)
      ensures Snapshot() == stores.(currentUser := None, currentConversation := None, currentTitle := title)
      ensures Valid()
    {
      users, userDb, conversations, messages := stores.users, stores.userDb, stores.conversations, stores.messages;
      currentUser, currentConversation := None, None;
      currentTitle, serial := title, stores.serial;
    }

    /** UUID.randomUUID(): an id no earlier draw returned. */
    method NextRandomId() returns (id: Uuid)
      modifies this`serial
      ensures id == RandomUuid(old(serial)) && serial == old(serial) + 1
    {
      id := RandomUuid(serial);
      serial := serial + 1;
    }

    /** appendUser: find the user with the name-based id, or create it. */
    method AppendUser(userName: string)
      modifies this
      ensures Snapshot() == ScriptParser.AppendUser(old(Snapshot()), userName)
      ensures old(Valid()) ==> Valid()
    {
      ghost var before := Snapshot();
      var userNameUuid := NameUuid(userName);
      var foundUser := Lookup(userDb, userNameUuid);
      if foundUser.Some? {
        currentUser := foundUser;
      } else {
        var user := User(NameUuid(userName), userName, "password");
        users := users + [user];
        userDb := userDb[user.id := user];
        currentUser := Some(user);
      }
      if Inv(before) {
        ScriptParser.AppendUserInv(before, userName);
      }
    }

    /** appendMessage: store `line` as a message of the current user in the
        current conversation; without either it throws. */
    method AppendMessage(line: string) returns (thrown: bool)
      modifies this
      ensures var r := ScriptParser.AppendMessage(old(Snapshot()), line);
        Snapshot() == r.state && thrown == r.thrown
    {
      var conversation := currentConversation;
      var author := currentUser;
      if conversation.None? || author.None? {
        return true;
      }
      var id := NextRandomId();
      var message := Message(id, conversation.value.id, author.value.id, line);
      messages := messages + [message];
      return false;
    }

    /** appendConversation: open a conversation owned by NARRATOR, titled
        currentTitle + "_" + line, and make it current; without NARRATOR in
        the database it throws. */
    method AppendConversation(line: string) returns (thrown: bool)
      modifies this
      ensures var r := ScriptParser.AppendConversation(old(Snapshot()), line);
        Snapshot() == r.state && thrown == r.thrown
    {
      var narratorNameUuid := NameUuid(Narrator);
      var user := Lookup(userDb, narratorNameUuid);
      var title := currentTitle + "_" + line;
      if user.None? {
        return true;
      }
      var id := NextRandomId();
      var conversation := Conversation(id, user.value.id, title);
      conversations := conversations + [conversation];
      currentConversation := Some(conversation);
      return false;
    }

    /** changeToNewUser: save the pending text of the current user, if
        any, then switch to `newUser`. */
    method ChangeToNewUser(charactersWord: string, newUser: string) returns (thrown: bool)
      modifies this
      ensures var r := ScriptParser.ChangeToNewUser(old(Snapshot()), charactersWord, newUser);
        Snapshot() == r.state && thrown == r.thrown
    {
      if currentUser.Some? {
        if charactersWord != "" {
          thrown := AppendMessage(charactersWord);
          if thrown {
            return;
          }
        }
        AppendUser(newUser);
      } else {
        AppendUser(newUser);
      }
      thrown := false;
    }

    /** foundWordNarratorDictates: on a stage-direction keyword, switch to
        NARRATOR and report it; otherwise change nothing. */
    method FoundWordNarratorDictates(firstWord: string, charactersWord: string) returns (didFind: bool, thrown: bool)
      modifies this
      ensures didFind == IsNarratorCue(firstWord)
      ensures didFind ==>
        var r := ScriptParser.ChangeToNewUser(old(Snapshot()), charactersWord, Narrator);
        Snapshot() == r.state && thrown == r.thrown
      ensures !didFind ==> Snapshot() == old(Snapshot()) && !thrown
    {
      didFind := true;
      thrown := false;
      if firstWord == "**Exit" || firstWord == "Enter" || firstWord == "**Exeunt" || firstWord == "Re-enter" {
        thrown := ChangeToNewUser(charactersWord, Narrator);
      } else {
        didFind := false;
      }
    }

    /** One iteration of readFile's loop: the token of `line` picks the
        branch; the result is the new pending text (charactersWord). */
    method ReadLine(line: string, charactersWord: string) returns (nextWord: string, thrown: bool)
      modifies this
      ensures var p := ScriptParser.ReadLine(old(Snapshot()), charactersWord, line);
        Snapshot() == p.state && nextWord == p.buffer && thrown == p.thrown
    {
      nextWord := charactersWord;
      var firstWord := FirstWord(line);
      ClassifyByToken(line);
      var isCapital := CheckIfAllCapital(firstWord);
      if isCapital {
        var addNewUser := false;
        if firstWord == "ACT" {
          assert Classify(line) == ActMarker;
          thrown := ChangeToNewUser(nextWord, Narrator);
          if thrown {
            return;
          }
          nextWord := "";
          thrown := AppendConversation(line);
          if thrown {
            return;
          }
        } else if firstWord == "SCENE" {
          assert Classify(line) == SceneMarker;
          thrown := ChangeToNewUser(nextWord, Narrator);
          if thrown {
            return;
          }
          nextWord := line;
        } else {
          addNewUser := true;
        }
        if addNewUser {
          assert Classify(line) == SpeakerCue(line);
          thrown := ChangeToNewUser(nextWord, line);
          if thrown {
            return;
          }
          nextWord := "";
        }
      } else {
        var didFind;
        didFind, thrown := FoundWordNarratorDictates(firstWord, nextWord);
        if thrown {
          return;
        }
        if didFind {
          nextWord := line;
        } else {
          nextWord := nextWord + " " + line;
        }
      }
    }

    /** readFile: run the parser over the lines, then save the pending
        text. An exception ends the run and leaves the stores as they are. */
    method ReadFile(lines: seq<string>) returns (thrown: bool)
      modifies this
      ensures var r := ScriptParser.ReadFile(old(Snapshot()), lines);
        Snapshot() == r.state && thrown == r.thrown
      ensures old(Valid()) ==> Valid() && Extends(old(Snapshot()), Snapshot())
    {
      ghost var start := Snapshot();
      if Inv(start) {
        ScriptParser.ReadFileInv(start, lines);
      }
      var charactersWord := "";
      var savedLine := "";
      var i := 0;
      while i < |lines|
        invariant 0 <= i <= |lines|
        invariant savedLine == charactersWord
        invariant ScriptParser.ReadLines(start, "", lines) == ScriptParser.ReadLines(Snapshot(), charactersWord, lines[i..])
      {
        var line := lines[i];
        ScriptParser.ReadLinesStep(Snapshot(), charactersWord, lines, i);
        charactersWord, thrown := ReadLine(line, charactersWord);
        if thrown {
          return;
        }
        savedLine := charactersWord;
        i := i + 1;
      }
      var lastM := savedLine;
      thrown := AppendMessage(lastM);
    }

    /** getMostActiveUser: "" when no message is visited; otherwise the name
        of the author with the most messages, the first to reach that count
        on a tie. Every author must be in the database. When the stores
        keep their invariant, each user's count over the visit is the
        number of stored messages they sent, so the result is "" exactly
        for an empty message store, and otherwise the name of a user who
        sent the most stored messages. */
    method GetMostActiveUser() returns (mostActive: string)
      requires AuthorsKnown(userDb, messages)
      ensures var us := Authors(userDb, Visited(conversations, messages));
        && (us == [] ==> mostActive == "")
        && (us != [] ==> exists k: nat :: IsFirstLeader(us, k) && mostActive == us[k].name)
      ensures Valid() && messages == [] ==> mostActive == ""
      ensures Valid() && messages != [] ==> exists u :: SentMost(userDb, messages, u) && mostActive == u.name
    {
      mostActive := MostActiveUser(userDb, conversations, messages);
      if Valid() {
        var us := Authors(userDb, Visited(conversations, messages));
        LeaderSentMost(Snapshot(), 0);
        if us != [] {
          var k: nat :| IsFirstLeader(us, k) && mostActive == us[k].name;
          LeaderSentMost(Snapshot(), k);
        }
      }
    }
  }
}
