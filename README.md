# Play-script loader of the CodeU chat app, in Dafny

The admin page of the chat application can load a Shakespeare play into
the chat stores. `AdminServlet.readFile` reads the script line by line:
- each act becomes a conversation owned by the user NARRATOR;
- each speaker becomes a user;
- each speech becomes a message by that user in the current conversation.

The same servlet reports the "most active user": the author with the most
messages over all conversations.

This project models both parts:

- `classifier.dfy` (module `LineClassifier`) is the pure line classifier:
  - the leading token of a line, which is "ACT" when the line contains "ACT";
  - the all-capitals test `checkIfAllCapital`;
  - the stage-direction keywords;
  - the five kinds of line that decide what the parser does.
- `stores.dfy` (module `Stores`) holds the entities (users, conversations,
  messages, ids), the parser's state and the store invariant. The
  invariant includes that no two conversations share an id.
- `script_parser.dfy` (module `ScriptParser`) specifies every servlet method
  as a function of the state. It proves what each kind of line does, that
  the invariant holds, that the stores only grow, how conversations
  partition the messages, and the final flush.
- `most_active.dfy` (module `MostActive`) is the counting fold of
  getMostActiveUser as methods with loop invariants. It proves that the
  result is the first author to reach the final maximum count. It also
  proves that, in a store that keeps its invariant, the fold visits every
  stored message exactly once, and that each user's count is the number
  of stored messages they sent. So the result names a user who sent the
  most stored messages.
- `admin_servlet.dfy` (module `AdminServlet`) is the class `ScriptLoader`.
  Its fields are the stores and the servlet fields. It is built on the
  stores it is given, which may already hold data, as `init` attaches
  the shared stores. Each method updates
  them in place and is proved equal to the `ScriptParser` function, so
  every lemma about that function holds of the object.
- `script_examples.dfy` (module `ScriptExamples`) proves what ReadFile
  yields on three small scripts.

A NullPointerException in the source is modelled as a `thrown` flag. This
covers appendMessage without a current conversation or user, and
appendConversation without NARRATOR in the database. The flag stops
readFile, and what the stores already received stays in them, as in the
source.

The model follows what the code does, including these behaviours that a
reader of the loader's documentation might not expect:
- Dialogue is stored as `buffer + " " + line`, so a speech starts with a space.
- Only the exact empty string is skipped when flushing; a buffer of spaces is stored.
- A SCENE line or a stage-direction line itself becomes NARRATOR's pending
  text, and is stored as a NARRATOR message at the next switch.
- The final appendMessage runs unconditionally, even with an empty buffer.
- A flush while no conversation is current throws. On the first upload
  there is no conversation before the first ACT line. Later uploads start
  in the conversation the previous one left current, because the fields
  persist. So, on a first upload, these throw:
  - a cue or ACT line after dialogue that follows a speaker cue before
    the first ACT line;
  - a cue or ACT line after a SCENE line or a stage direction before the
    first ACT line, since that line itself is the pending text;
  - the final flush of a script with no ACT line, even with "" pending.
  A speaker cue directly followed by the ACT line flushes nothing there
  and does not throw.

## Model

| member | source | states |
|---|---|---|
| LineClassifier.ContainsAt | src/main/java/codeu/controller/AdminServlet.java:234 | String.contains holds iff the pattern occurs at some position |
| LineClassifier.IndexOf | src/main/java/codeu/controller/AdminServlet.java:237 | indexOf of a present character is a position holding it, with no earlier occurrence |
| LineClassifier.FirstWord | src/main/java/codeu/controller/AdminServlet.java:233-238 | the token is "ACT" when the line contains "ACT"; otherwise it is a space-free prefix of the line that ends at the first space or at the end |
| LineClassifier.CheckIfAllCapital | src/main/java/codeu/controller/AdminServlet.java:137-146 | the early-return loop answers true iff the word has at least two characters and all of them are upper-case letters |
| LineClassifier.Classify | src/main/java/codeu/controller/AdminServlet.java:239-272 | a speaker cue names the whole line as the speaker |
| LineClassifier.IndexOfAt | src/main/java/codeu/controller/AdminServlet.java:237 | indexOf returns the first occurrence and no other position |
| LineClassifier.CueLine | src/main/java/codeu/controller/AdminServlet.java:233-239 | a line is a cue line iff its token has two or more upper-case letters and nothing else; it is an act line iff it contains "ACT" |
| LineClassifier.ShortLineNeverCue | src/main/java/codeu/controller/AdminServlet.java:137-146 | a line shorter than two characters, or with no upper-case letter, is never a cue |
| LineClassifier.EmptyLineIsDialogue | src/main/java/codeu/controller/AdminServlet.java:143 | the empty token is not all-capitals, so an empty line is dialogue |
| Stores.InitialInv | src/main/java/codeu/controller/AdminServlet.java:35-37 | empty stores, with no current user or conversation, satisfy the store invariant |
| ScriptParser.ResolveUser | src/main/java/codeu/controller/AdminServlet.java:150-161 | appendUser leaves a current user with the name-based id and the name; it adds that user exactly when the id is missing from the database; nothing else changes |
| ScriptParser.ResolveUserIdempotent | src/main/java/codeu/controller/AdminServlet.java:150-161 | a second appendUser with the same name changes nothing, so two calls add at most one user |
| ScriptParser.FlushThenSwitch | src/main/java/codeu/controller/AdminServlet.java:192-201 | changeToNewUser appends exactly one message, with the pending text, the old user as author and the current conversation, iff there is a current user and the text is not exactly ""; it throws iff that flush has no conversation; otherwise the new user ends current |
| ScriptParser.ActLine | src/main/java/codeu/controller/AdminServlet.java:243-248 | an act line flushes into the previous conversation, makes NARRATOR current, empties the buffer and appends one conversation with a fresh id, owner NARRATOR and title currentTitle_line, which becomes current; only the flush can throw |
| ScriptParser.NarratorLine | src/main/java/codeu/controller/AdminServlet.java:250-254 | a SCENE line or a stage direction flushes, makes NARRATOR current and sets the buffer to the line itself; no conversation is created |
| ScriptParser.SpeakerLine | src/main/java/codeu/controller/AdminServlet.java:256-265 | a speaker cue flushes, makes the user named by the whole line current and empties the buffer |
| ScriptParser.DialogueLine | src/main/java/codeu/controller/AdminServlet.java:270-272 | a dialogue line changes no store and sets the buffer to buffer + " " + line |
| ScriptParser.AppendUserInv | src/main/java/codeu/controller/AdminServlet.java:150-161 | appendUser keeps the store invariant and only extends the stores |
| ScriptParser.AppendMessageInv | src/main/java/codeu/controller/AdminServlet.java:164-172 | appendMessage keeps the store invariant and only extends the stores |
| ScriptParser.AppendConversationInv | src/main/java/codeu/controller/AdminServlet.java:175-189 | appendConversation keeps the store invariant and only extends the stores |
| ScriptParser.ChangeToNewUserInv | src/main/java/codeu/controller/AdminServlet.java:192-201 | changeToNewUser keeps the store invariant and only extends the stores |
| ScriptParser.ReadLineInv | src/main/java/codeu/controller/AdminServlet.java:239-275 | one loop iteration keeps the store invariant and only extends the stores |
| ScriptParser.ReadLinesInv | src/main/java/codeu/controller/AdminServlet.java:228-276 | the loop keeps the store invariant and only extends the stores, even when a line throws |
| ScriptParser.ReadFileInv | src/main/java/codeu/controller/AdminServlet.java:219-282 | readFile keeps the store invariant, and nothing stored before is removed or changed |
| ScriptParser.SwitchStaysInConversation | src/main/java/codeu/controller/AdminServlet.java:192-201 | with a current conversation, changeToNewUser does not throw, and every message it adds goes into that conversation |
| ScriptParser.NonActLineStaysInConversation | src/main/java/codeu/controller/AdminServlet.java:250-272 | a line without "ACT" keeps the current conversation and adds no conversation |
| ScriptParser.NoActKeepsConversation | src/main/java/codeu/controller/AdminServlet.java:228-276 | between act lines every message goes into the conversation the last act line opened |
| ScriptParser.ReadLineNeverThrows | src/main/java/codeu/controller/AdminServlet.java:239-275 | with a current user and conversation no line throws, and both stay set |
| ScriptParser.ReadLinesNeverThrows | src/main/java/codeu/controller/AdminServlet.java:228-276 | once a user and a conversation are current, no later line throws |
| ScriptParser.TerminalFlush | src/main/java/codeu/controller/AdminServlet.java:277-281 | after the loop exactly one message is appended with the final buffer, even "", and that call throws iff no user or no conversation is current |
| ScriptParser.FileStartingWithAct | src/main/java/codeu/controller/AdminServlet.java:315 | a script whose first line contains "ACT" is read without an exception |
| MostActive.MessagesIn | src/main/java/codeu/controller/AdminServlet.java:83 | the messages of one conversation are exactly the stored messages with that conversation id |
| MostActive.Visited | src/main/java/codeu/controller/AdminServlet.java:80-85 | every visited message is a stored message; MostActive.VisitedIsStore gives the converse |
| MostActive.AnySplit | src/main/java/codeu/controller/AdminServlet.java:83 | the messages of a set of conversations plus one more conversation are those of the set together with that conversation's messages |
| MostActive.VisitedOnce | src/main/java/codeu/controller/AdminServlet.java:80-85 | with distinct conversation ids, the visit holds each message of a listed conversation exactly once |
| MostActive.VisitedIsStore | src/main/java/codeu/controller/AdminServlet.java:80-85 | in a store that keeps its invariant, the visit is a permutation of the message store |
| MostActive.CountIsSent | src/main/java/codeu/controller/AdminServlet.java:93-101 | counting the authors of the visited messages counts, for each user, the messages the database attributes to them |
| MostActive.VisitedSent | src/main/java/codeu/controller/AdminServlet.java:80-85 | with distinct conversation ids, visiting each conversation's messages counts every message of a listed conversation once |
| MostActive.VisitedCountsStore | src/main/java/codeu/controller/AdminServlet.java:80-85 | in a store that keeps its invariant, each user's count over the visit equals the number of stored messages they sent |
| MostActive.LeaderSentMost | src/main/java/codeu/controller/AdminServlet.java:71-111 | in a store that keeps its invariant, nothing is visited exactly when no message is stored, and the first leader sent at least as many stored messages as anybody |
| MostActive.LeaderUnique | src/main/java/codeu/controller/AdminServlet.java:93-107 | at most one entry is the first to reach the final maximum, so the contract fixes the result |
| MostActive.TallyAdd | src/main/java/codeu/controller/AdminServlet.java:93-107 | counting one more message keeps the counts exact, and the first leader changes only on a strictly greater count |
| MostActive.CountMessage | src/main/java/codeu/controller/AdminServlet.java:93-107 | the map update and the strict-maximum test keep the tally exact for one more author |
| MostActive.CountConversation | src/main/java/codeu/controller/AdminServlet.java:84-108 | the inner loop counts the database user of each message of one conversation, in order |
| MostActive.CountNextConversation | src/main/java/codeu/controller/AdminServlet.java:81-108 | one outer iteration extends the tally by the authors of the next conversation |
| MostActive.MostActiveUser | src/main/java/codeu/controller/AdminServlet.java:72-111 | the result is "" when no message is visited; otherwise it is the name of the author whose count is the maximum and who reached it first |
| AdminServlet.ScriptLoader.constructor | src/main/java/codeu/controller/AdminServlet.java:35-45 | the servlet holds the stores it is given, which keep the invariant; there is no current user or conversation, and the title is the given one |
| AdminServlet.ScriptLoader.NextRandomId | src/main/java/codeu/controller/AdminServlet.java:170 | each random id differs from all drawn before |
| AdminServlet.ScriptLoader.AppendUser | src/main/java/codeu/controller/AdminServlet.java:150-161 | updates the fields exactly as ScriptParser.AppendUser and keeps the invariant |
| AdminServlet.ScriptLoader.AppendMessage | src/main/java/codeu/controller/AdminServlet.java:164-172 | updates the fields and throws exactly as ScriptParser.AppendMessage |
| AdminServlet.ScriptLoader.AppendConversation | src/main/java/codeu/controller/AdminServlet.java:175-189 | updates the fields and throws exactly as ScriptParser.AppendConversation |
| AdminServlet.ScriptLoader.ChangeToNewUser | src/main/java/codeu/controller/AdminServlet.java:192-201 | updates the fields and throws exactly as ScriptParser.ChangeToNewUser |
| AdminServlet.ScriptLoader.FoundWordNarratorDictates | src/main/java/codeu/controller/AdminServlet.java:203-212 | reports a stage-direction keyword exactly when the token is one; then it switches to NARRATOR, otherwise it changes nothing |
| AdminServlet.ScriptLoader.ReadLine | src/main/java/codeu/controller/AdminServlet.java:229-274 | one iteration of the loop leaves the fields, the pending text and the exception exactly as ScriptParser.ReadLine |
| AdminServlet.ScriptLoader.ReadFile | src/main/java/codeu/controller/AdminServlet.java:219-282 | the loop leaves the fields and the exception exactly as ScriptParser.ReadFile; the invariant holds afterwards and the stores only grew |
| AdminServlet.ScriptLoader.GetMostActiveUser | src/main/java/codeu/controller/AdminServlet.java:71-111 | "" when no message is visited; otherwise the name of the first author to reach the final maximum count; when the stores keep their invariant, "" for an empty message store and otherwise the name of a user who sent the most stored messages |
| ScriptExamples.BalconyScene | src/main/java/codeu/controller/AdminServlet.java:219-282 | ACT II, ROMEO, "But soft" gives users NARRATOR and ROMEO, one conversation "R&J_ACT II", and one message " But soft" by ROMEO |
| ScriptExamples.DialogueBeforeActThrows | src/main/java/codeu/controller/AdminServlet.java:243-248 | ROMEO, "But soft", ACT II throws at the act line's flush, leaving only ROMEO's user stored |
| ScriptExamples.SpeakerBeforeActWithoutText | src/main/java/codeu/controller/AdminServlet.java:243-248 | ROMEO, ACT II does not throw: nothing is pending at the act line, and the final flush stores an empty NARRATOR message |

## Left out

- Servlet plumbing is left out: the store setters, `doGet` and `doPost`. This covers request parameters, the title-selection chain, opening the file, JSP forwarding and console output. `init` becomes the constructor, which takes the stores and the title as parameters. The input is a sequence of lines.
- `UserStore.addUser`, `ConversationStore` and `MessageStore` are not part of this model. The model assumes `addUser` writes the user through to the database that `getUserFromPDatabase` reads. It also assumes each store keeps insertion order and `getMessagesInConversation` filters by conversation id in store order.
- `UUID.nameUUIDFromBytes` (MD5-based) is modelled as an injective constructor `NameUuid(name)`. `UUID.randomUUID()` is modelled as a counter, so random ids are fresh by construction. They never equal a name-based id.
- `Instant.now()` timestamps are not modelled.
- `Character.isLetter` and `Character.isUpperCase` are approximated by ASCII 'A' to 'Z'. Upper-case letters outside ASCII are treated as non-capitals.
- Concurrent uploads and the process-wide shared stores are not modelled. The parse is single-threaded.
- Exceptions other than the NullPointerExceptions of `appendMessage` and `appendConversation` are not modelled. This includes I/O errors from the reader.
- AdminServlet.ScriptLoader.GetMostActiveUser: requires every message author to be in the database. For a missing author the source puts a null key in the HashMap, which accepts it. The source then throws on `getName()` only when that null key's count exceeds `maxCount`, which is always the case for the first visited message. Otherwise the null user is counted silently. Neither path is modelled.
- MostActive.MostActiveUser: users are counted by value equality. `User.equals` is not part of this model. If `User` keeps Java's default identity equality, each `getUserFromPDatabase` call yields a new HashMap key, every count stays 1, and the result is the author of the first visited message. `AdminServlet.ScriptLoader.GetMostActiveUser`'s "a user who sent the most stored messages" ensures holds only under value equality.
- LineClassifier.Classify: its own contract only says that a speaker cue names the whole line. `LineClassifier.CueLine` states which lines are cues and which are act markers; the rest of the classification is the body of `Classify`, which follows readFile's tests in their order. `ScriptParser.ReadLine` dispatches on it.
- `getUserFromPDatabase` is a map lookup, and a miss (EntityNotFoundException) is `None`.
- Java `int` counts and `maxCount` in getMostActiveUser are unbounded naturals; overflow past 2^31 - 1 messages is not modelled.
- AdminServlet.ScriptLoader.ReadLine: the body of readFile's loop is a method of its own, called once per line; the source has it inline.
