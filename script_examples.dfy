/** What ReadFile yields on three small scripts, proved line by line:
    the stores each leaves and whether it throws. */
module ScriptExamples {
  import opened Stores
  import opened LineClassifier
  import opened ScriptParser

  /** A line without the letter A does not contain "ACT". */
  lemma {:induction false} NoLetterANoAct(s: string)
    requires 'A' !in s
    ensures !Contains(s, "ACT")
    decreases |s|
  {
    if s != [] {
      assert s[0] != 'A';
      assert 'A' !in s[1..];
      NoLetterANoAct(s[1..]);
    }
  }

  lemma ActToken()
    ensures FirstWord("ACT II") == "ACT"
  {
    assert StartsWith("ACT II", "ACT");
  }

  lemma RomeoToken()
    ensures FirstWord("ROMEO") == "ROMEO"
  {
    NoLetterANoAct("ROMEO");
  }

  lemma RomeoCapital()
    ensures IsAllCapital("ROMEO")
  {
  }

  lemma ButSpace()
    ensures IndexOf("But soft", ' ') == 3
  {
    assert "But soft"[..3] == "But";
    IndexOfAt("But soft", ' ', 3);
  }

  lemma ButToken()
    ensures FirstWord("But soft") == "But"
  {
    NoLetterANoAct("But soft");
    ButSpace();
    assert "But soft"[..3] == "But";
  }

  lemma ButIsDialogue()
    ensures Classify("But soft") == Dialogue
  {
    ButToken();
    ButNotCue();
  }

  lemma ActIsAct()
    ensures Classify("ACT II") == ActMarker
  {
    ActToken();
    assert IsAllCapital("ACT");
  }

  lemma RomeoIsCue()
    ensures Classify("ROMEO") == SpeakerCue("ROMEO")
  {
    RomeoToken();
    RomeoCapital();
  }

  lemma ButNotCue()
    ensures !IsAllCapital("But") && !IsNarratorCue("But")
  {
    assert !IsUpperLetter("But"[1]);
  }

  function Romeo(): User { NewUser("ROMEO") }
  function NarratorUser(): User { NewUser(Narrator) }
  function Act2(): Conversation { Conversation(RandomUuid(0), NameUuid(Narrator), "R&J_ACT II") }

  /** The state after the act line of BalconyScene. */
  function AfterAct(): State {
    State([NarratorUser()], map[NarratorUser().id := NarratorUser()], [Act2()], [],
          Some(NarratorUser()), Some(Act2()), "R&J", 1)
  }

  /** The state after the speaker cue of BalconyScene. */
  function AfterRomeo(): State {
    AfterAct().(users := [NarratorUser(), Romeo()],
                 userDb := AfterAct().userDb[Romeo().id := Romeo()],
                 currentUser := Some(Romeo()))
  }

  lemma ActStep(line: string)
    requires line == "ACT II"
    ensures ReadLine(Initial("R&J"), "", line) == Parsed(AfterAct(), "", false)
  {
    ActIsAct();
    var s0 := Initial("R&J");
    var n := NarratorUser();
    var s1 := s0.(users := [n], userDb := map[n.id := n], currentUser := Some(n));
    assert ChangeToNewUser(s0, "", Narrator) == Step(s1, false);
    assert s1.currentTitle + "_" + line == "R&J_ACT II";
    assert AppendConversation(s1, line) == Step(AfterAct(), false);
  }

  lemma RomeoStep(line: string)
    requires line == "ROMEO"
    ensures ReadLine(AfterAct(), "", line) == Parsed(AfterRomeo(), "", false)
  {
    RomeoIsCue();
  }

  lemma ButStep(s: State, line: string)
    requires line == "But soft"
    ensures ReadLine(s, "", line) == Parsed(s, " But soft", false)
  {
    ButIsDialogue();
    DialogueLine(s, "", line);
    LeadingSpace(line);
  }

  lemma LeadingSpace(line: string)
    requires line == "But soft"
    ensures "" + " " + line == " But soft"
  {
    assert "" + " " + line == " " + line;
  }

  /** An act line, a speaker cue and one line of dialogue: NARRATOR and the
      speaker are created in that order, one conversation is opened, and the
      final flush stores the dialogue with its leading space. */
  lemma BalconyScene(lines: seq<string>)
    requires lines == ["ACT II", "ROMEO", "But soft"]
    ensures var r := ReadFile(Initial("R&J"), lines);
      && !r.thrown
      && r.state.users == [NewUser(Narrator), NewUser("ROMEO")]
      && r.state.conversations == [Conversation(RandomUuid(0), NameUuid(Narrator), "R&J_ACT II")]
      && r.state.messages == [Message(RandomUuid(1), RandomUuid(0), NameUuid("ROMEO"), " But soft")]
  {
    ActStep(lines[0]);
    RomeoStep(lines[1]);
    ButStep(AfterRomeo(), lines[2]);
    ReadLinesStep(Initial("R&J"), "", lines, 0);
    ReadLinesStep(AfterAct(), "", lines, 1);
    ReadLinesStep(AfterRomeo(), "", lines, 2);
    assert lines[0..] == lines && lines[3..] == [];
    assert ReadLines(Initial("R&J"), "", lines) == Parsed(AfterRomeo(), " But soft", false);
  }

  /** The state after the speaker cue of the scripts that open with ROMEO. */
  function RomeoFirst(): State {
    Initial("R&J").(users := [Romeo()], userDb := map[Romeo().id := Romeo()], currentUser := Some(Romeo()))
  }

  lemma RomeoFirstStep(line: string)
    requires line == "ROMEO"
    ensures ReadLine(Initial("R&J"), "", line) == Parsed(RomeoFirst(), "", false)
  {
    RomeoIsCue();
  }

  lemma ActWithoutConversationStep(line: string)
    requires line == "ACT II"
    ensures ReadLine(RomeoFirst(), " But soft", line) == Parsed(RomeoFirst(), " But soft", true)
  {
    ActIsAct();
    assert ChangeToNewUser(RomeoFirst(), " But soft", Narrator) == Step(RomeoFirst(), true);
  }

  /** A speaker with pending text before the first act line has no
      conversation to speak into: the flush at the act line throws, and the
      user created for the speaker stays in the store. */
  lemma DialogueBeforeActThrows(lines: seq<string>)
    requires lines == ["ROMEO", "But soft", "ACT II"]
    ensures var r := ReadFile(Initial("R&J"), lines);
      && r.thrown
      && r.state.users == [NewUser("ROMEO")]
      && r.state.conversations == [] && r.state.messages == []
  {
    RomeoFirstStep(lines[0]);
    ButStep(RomeoFirst(), lines[1]);
    ActWithoutConversationStep(lines[2]);
    ReadLinesStep(Initial("R&J"), "", lines, 0);
    ReadLinesStep(RomeoFirst(), "", lines, 1);
    ReadLinesStep(RomeoFirst(), " But soft", lines, 2);
    assert lines[0..] == lines;
    assert ReadLines(Initial("R&J"), "", lines) == Parsed(RomeoFirst(), " But soft", true);
  }

  /** The state after the act line of SpeakerBeforeActWithoutText. */
  function RomeoThenAct(): State {
    var n := NarratorUser();
    RomeoFirst().(users := [Romeo(), n], userDb := RomeoFirst().userDb[n.id := n], currentUser := Some(n),
                  conversations := [Act2()], currentConversation := Some(Act2()), serial := 1)
  }

  lemma ActAfterSilentSpeakerStep(line: string)
    requires line == "ACT II"
    ensures ReadLine(RomeoFirst(), "", line) == Parsed(RomeoThenAct(), "", false)
  {
    ActIsAct();
    var n := NarratorUser();
    var s1 := RomeoFirst().(users := [Romeo(), n], userDb := RomeoFirst().userDb[n.id := n], currentUser := Some(n));
    assert ChangeToNewUser(RomeoFirst(), "", Narrator) == Step(s1, false);
    assert s1.currentTitle + "_" + line == "R&J_ACT II";
    assert AppendConversation(s1, line) == Step(RomeoThenAct(), false);
  }

  /** A speaker cue before the first act line throws nothing when no text
      is pending at the act line: nothing is flushed there, and the final
      flush stores an empty NARRATOR message in the new conversation. */
  lemma SpeakerBeforeActWithoutText(lines: seq<string>)
    requires lines == ["ROMEO", "ACT II"]
    ensures var r := ReadFile(Initial("R&J"), lines);
      && !r.thrown
      && r.state.users == [NewUser("ROMEO"), NewUser(Narrator)]
      && r.state.messages == [Message(RandomUuid(1), RandomUuid(0), NameUuid(Narrator), "")]
  {
    RomeoFirstStep(lines[0]);
    ActAfterSilentSpeakerStep(lines[1]);
    ReadLinesStep(Initial("R&J"), "", lines, 0);
    ReadLinesStep(RomeoFirst(), "", lines, 1);
    assert lines[0..] == lines && lines[2..] == [];
    assert ReadLines(Initial("R&J"), "", lines) == Parsed(RomeoThenAct(), "", false);
  }
}
