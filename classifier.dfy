/** How readFile in AdminServlet sorts the lines of a play script.
    Everything here is pure: the leading token of a line, the all-capitals
    test on that token, the stage-direction keywords, and the five kinds of
    line that together decide what the parser does with a line. */
module LineClassifier {

  /** The five kinds of line the parser distinguishes. */
  datatype LineKind =
    | ActMarker             // token "ACT": starts a new conversation
    | SceneMarker           // token "SCENE": NARRATOR speaks the scene line
    | SpeakerCue(name: string) // any other all-capitals token: the full line names the speaker
    | StageDirection        // one of the narrator keywords
    | Dialogue              // everything else: appended to the pending text

  /** `p` is a prefix of `s`. */
  predicate StartsWith(s: string, p: string) {
    |p| <= |s| && s[..|p|] == p
  }

  /** Java's String.contains: `sub` occurs somewhere in `s`. */
  predicate Contains(s: string, sub: string)
    decreases |s|
  {
    StartsWith(s, sub) || (s != [] && Contains(s[1..], sub))
  }

  /** Contains means "occurs at some position". */
  lemma {:induction false} ContainsAt(s: string, sub: string)
    ensures Contains(s, sub) <==> exists i | 0 <= i <= |s| :: StartsWith(s[i..], sub)
    decreases |s|
  {
    if Contains(s, sub) {
      if StartsWith(s, sub) {
        assert s[0..] == s;
      } else {
        ContainsAt(s[1..], sub);
        var i :| 0 <= i <= |s[1..]| && StartsWith(s[1..][i..], sub);
        assert s[1..][i..] == s[i + 1..];
      }
    } else {
      forall i | 0 <= i <= |s|
        ensures !StartsWith(s[i..], sub)
      {
        if i == 0 {
          assert s[0..] == s;
        } else {
          ContainsAt(s[1..], sub);
          assert s[1..][i - 1..] == s[i..];
        }
      }
    }
  }

  /** A string can only contain strings no longer than itself. */
  lemma {:induction false} ContainsNoLonger(s: string, sub: string)
    requires Contains(s, sub)
    ensures |sub| <= |s|
    decreases |s|
  {
    if !StartsWith(s, sub) {
      ContainsNoLonger(s[1..], sub);
    }
  }

  /** A string without upper-case letters does not contain "ACT". */
  lemma {:induction false} NoCapitalsNoAct(s: string)
    requires forall i | 0 <= i < |s| :: !IsUpperLetter(s[i])
    ensures !Contains(s, "ACT")
    decreases |s|
  {
    if s != [] {
      assert !IsUpperLetter(s[0]);
      NoCapitalsNoAct(s[1..]);
    }
  }

  /** Java's String.indexOf for a character known to occur. */
  function IndexOf(s: string, c: char): (k: nat)
    requires c in s
    ensures k < |s| && s[k] == c
    ensures c !in s[..k]
  {
    if s[0] == c then 0
    else
      var k := IndexOf(s[1..], c);
      assert s[..k + 1] == [s[0]] + s[1..][..k];
      k + 1
  }

  /** indexOf finds the first occurrence and no other. */
  lemma IndexOfAt(s: string, c: char, k: nat)
    requires k < |s| && s[k] == c && c !in s[..k]
    ensures IndexOf(s, c) == k
  {
  }

  /** The leading token of a line (AdminServlet.java:233-238): "ACT" when
      the line contains "ACT" anywhere, else the part before the first
      space, else the whole line. */
  function FirstWord(line: string): (w: string)
    ensures Contains(line, "ACT") ==> w == "ACT"
    ensures !Contains(line, "ACT") ==>
              ' ' !in w && StartsWith(line, w) && (|w| == |line| || line[|w|] == ' ')
  {
    if Contains(line, "ACT") then "ACT"
    else if ' ' in line then line[..IndexOf(line, ' ')]
    else line
  }

  /** ASCII approximation of Character.isLetter && Character.isUpperCase. */
  predicate IsUpperLetter(c: char) {
    'A' <= c <= 'Z'
  }

  /** An all-capitals word: two or more characters, every one an upper-case letter. */
  predicate IsAllCapital(word: string) {
    |word| >= 2 && forall i | 0 <= i < |word| :: IsUpperLetter(word[i])
  }

  /** checkIfAllCapital: scan the word, reject at the first character
      that is not an upper-case letter, then reject words shorter than 2. */
  method CheckIfAllCapital(firstWord: string) returns (b: bool)
    ensures b <==> IsAllCapital(firstWord)
  {
    var i := 0;
    while i < |firstWord|
      invariant 0 <= i <= |firstWord|
      invariant forall j | 0 <= j < i :: IsUpperLetter(firstWord[j])
    {
      if !IsUpperLetter(firstWord[i]) {
        return false;
      }
      i := i + 1;
    }
    if |firstWord| < 2 {
      return false;
    }
    return true;
  }

  /** The keywords that hand the floor to NARRATOR (foundWordNarratorDictates). */
  predicate IsNarratorCue(word: string) {
    word == "**Exit" || word == "Enter" || word == "**Exeunt" || word == "Re-enter"
  }

  /** The kind of a line, as readFile's branches decide it. */
  function Classify(line: string): (k: LineKind)
    ensures k.SpeakerCue? ==> k.name == line
  {
    var word := FirstWord(line);
    if IsAllCapital(word) then
      if word == "ACT" then ActMarker
      else if word == "SCENE" then SceneMarker
      else SpeakerCue(line)
    else if IsNarratorCue(word) then StageDirection
    else Dialogue
  }

  /** The kind of a line in terms of the tests readFile makes, in its order. */
  lemma ClassifyByToken(line: string)
    ensures var w := FirstWord(line);
      && (IsAllCapital(w) && w == "ACT" ==> Classify(line) == ActMarker)
      && (IsAllCapital(w) && w != "ACT" && w == "SCENE" ==> Classify(line) == SceneMarker)
      && (IsAllCapital(w) && w != "ACT" && w != "SCENE" ==> Classify(line) == SpeakerCue(line))
      && (!IsAllCapital(w) && IsNarratorCue(w) ==> Classify(line) == StageDirection)
      && (!IsAllCapital(w) && !IsNarratorCue(w) ==> Classify(line) == Dialogue)
  {
  }

  /** A cue line: one whose token is an all-capitals word. */
  predicate IsCue(k: LineKind) {
    k.ActMarker? || k.SceneMarker? || k.SpeakerCue?
  }

  /** The cue-line test: a line is a cue line iff its token is at least two
      upper-case letters; the token is "ACT" exactly when the line contains
      "ACT", and then the line is an act marker. */
  lemma CueLine(line: string)
    ensures IsCue(Classify(line)) <==>
              |FirstWord(line)| >= 2 && forall i | 0 <= i < |FirstWord(line)| :: IsUpperLetter(FirstWord(line)[i])
    ensures Classify(line).ActMarker? <==> Contains(line, "ACT")
  {
  }

  /** A line shorter than two characters, or with no letters, is never a cue. */
  lemma {:induction false} ShortLineNeverCue(line: string)
    requires |line| < 2 || forall i | 0 <= i < |line| :: !IsUpperLetter(line[i])
    ensures !IsCue(Classify(line))
  {
    if |line| >= 2 {
      NoCapitalsNoAct(line);
    } else if Contains(line, "ACT") {
      ContainsNoLonger(line, "ACT");
    }
  }

  /** The empty token is never a cue, so an empty line is dialogue. */
  lemma EmptyLineIsDialogue()
    ensures !IsAllCapital("")
    ensures Classify("") == Dialogue
  {
    assert !Contains("", "ACT");
  }
}
