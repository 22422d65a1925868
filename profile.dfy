/**
 * The profile scene: the bio editor folds the stored bio lines into one
 * newline-terminated draft and, on confirmation, splits the draft back on
 * '\n'; plus the dialog flags and the self-greeting.
 */
module Profile {

  import opened Wrappers

  datatype UserProfile = UserProfile(username: string, population: int, bio: seq<string>)

  /** The reducer step: a non-empty line followed by '\n', or a lone '\n'. */
  function DraftLine(line: string): string {
    if |line| > 0 then line + "\n" else "\n"
  }

  /** `lines.reduce((draft, line) => draft += DraftLine(line), '')`, a left fold. */
  function Draft(lines: seq<string>): string
    decreases |lines|
  {
    if lines == [] then "" else Draft(lines[..|lines| - 1]) + DraftLine(lines[|lines| - 1])
  }

  /** Each line followed by '\n', concatenated from the front: the reference reading of the draft. */
  function Terminated(lines: seq<string>): string {
    if lines == [] then "" else lines[0] + "\n" + Terminated(lines[1..])
  }

  /** Both branches of the reducer's conditional append the same text. */
  lemma DraftLineIsLineAndNewline(line: string)
    ensures DraftLine(line) == line + "\n"
  {
    if |line| == 0 {
      assert line == "";
    }
  }

  lemma {:induction false} TerminatedAppend(lines: seq<string>, line: string)
    ensures Terminated(lines + [line]) == Terminated(lines) + line + "\n"
  {
    if lines != [] {
      assert (lines + [line])[1..] == lines[1..] + [line];
      TerminatedAppend(lines[1..], line);
    } else {
      assert [] + [line] == [line];
    }
  }

  /** The draft is every bio line followed by '\n', in order. */
  lemma {:induction false} DraftIsTerminated(lines: seq<string>)
    ensures Draft(lines) == Terminated(lines)
  {
    if lines != [] {
      var n := |lines| - 1;
      DraftIsTerminated(lines[..n]);
      DraftLineIsLineAndNewline(lines[n]);
      TerminatedAppend(lines[..n], lines[n]);
      assert lines[..n] + [lines[n]] == lines;
    }
  }

  function CountNewlines(s: string): nat {
    if s == [] then 0 else (if s[0] == '\n' then 1 else 0) + CountNewlines(s[1..])
  }

  lemma {:induction false} CountNewlinesAppend(s: string, t: string)
    ensures CountNewlines(s + t) == CountNewlines(s) + CountNewlines(t)
  {
    if s != [] {
      assert (s + t)[1..] == s[1..] + t;
      CountNewlinesAppend(s[1..], t);
    } else {
      assert s + t == t;
    }
  }

  lemma {:induction false} NoNewlineCountsZero(s: string)
    requires '\n' !in s
    ensures CountNewlines(s) == 0
  {
    if s != [] {
      NoNewlineCountsZero(s[1..]);
    }
  }

  predicate NoLineBreaks(lines: seq<string>) {
    forall i :: 0 <= i < |lines| ==> '\n' !in lines[i]
  }

  /** When no line holds a '\n', the draft holds exactly one '\n' per line. */
  lemma {:induction false} DraftNewlineCount(lines: seq<string>)
    requires NoLineBreaks(lines)
    ensures CountNewlines(Draft(lines)) == |lines|
  {
    DraftIsTerminated(lines);
    TerminatedNewlineCount(lines);
  }

  lemma {:induction false} TerminatedNewlineCount(lines: seq<string>)
    requires NoLineBreaks(lines)
    ensures CountNewlines(Terminated(lines)) == |lines|
  {
    if lines != [] {
      var tail := Terminated(lines[1..]);
      TerminatedNewlineCount(lines[1..]);
      NoNewlineCountsZero(lines[0]);
      CountNewlinesAppend(lines[0], "\n" + tail);
      CountNewlinesAppend("\n", tail);
      assert CountNewlines("\n") == 1 by {
        assert "\n"[1..] == "";
      }
      assert Terminated(lines) == lines[0] + ("\n" + tail);
    }
  }

  /**
   * `s.split('\n')`: the pieces between separators, including an empty
   * piece before a leading or after a trailing '\n'.
   */
  function SplitLines(s: string): (parts: seq<string>)
    ensures |parts| >= 1
    ensures forall i :: 0 <= i < |parts| ==> '\n' !in parts[i]
    decreases |s|
  {
    if s == [] then [""]
    else
      var rest := SplitLines(s[1..]);
      if s[0] == '\n' then [""] + rest
      else [[s[0]] + rest[0]] + rest[1..]
  }

  /** `parts.join('\n')`. */
  function JoinLines(parts: seq<string>): string
    requires |parts| >= 1
  {
    if |parts| == 1 then parts[0] else parts[0] + "\n" + JoinLines(parts[1..])
  }

  /** Splitting on '\n' and joining with '\n' gives back the text. */
  lemma {:induction false} JoinSplit(s: string)
    ensures JoinLines(SplitLines(s)) == s
    decreases |s|
  {
    if s != [] {
      JoinSplit(s[1..]);
      var rest := SplitLines(s[1..]);
      if s[0] != '\n' {
        var parts := SplitLines(s);
        assert parts[1..] == rest[1..];
        if |rest| == 1 {
          assert JoinLines(parts) == [s[0]] + rest[0];
        } else {
          assert JoinLines(parts) == [s[0]] + rest[0] + "\n" + JoinLines(rest[1..]);
        }
      } else {
        assert SplitLines(s)[1..] == rest;
      }
      assert [s[0]] + s[1..] == s;
    }
  }

  /** A '\n'-free line followed by '\n' splits off as one piece. */
  lemma {:induction false} SplitAfterLine(line: string, tail: string)
    requires '\n' !in line
    ensures SplitLines(line + "\n" + tail) == [line] + SplitLines(tail)
    decreases |line|
  {
    var s := line + "\n" + tail;
    if line == [] {
      assert s == "\n" + tail;
      assert s[1..] == tail;
    } else {
      assert s[1..] == line[1..] + "\n" + tail;
      SplitAfterLine(line[1..], tail);
      assert [s[0]] + line[1..] == line;
    }
  }

  /**
   * Opening the editor and confirming without edits hands on the bio lines
   * plus one empty line, provided no line holds a '\n'.
   */
  lemma {:induction false} SplitDraft(lines: seq<string>)
    requires NoLineBreaks(lines)
    ensures SplitLines(Draft(lines)) == lines + [""]
  {
    DraftIsTerminated(lines);
    SplitTerminated(lines);
  }

  lemma {:induction false} SplitTerminated(lines: seq<string>)
    requires NoLineBreaks(lines)
    ensures SplitLines(Terminated(lines)) == lines + [""]
  {
    if lines != [] {
      SplitTerminated(lines[1..]);
      SplitAfterLine(lines[0], Terminated(lines[1..]));
      assert lines[0] + "\n" + Terminated(lines[1..]) == Terminated(lines);
      assert [lines[0]] + (lines[1..] + [""]) == lines + [""];
    }
  }

  const SelfGreeting := "it be you"

  /** The name shown on a profile: the greeting on one's own profile, the username on anyone else's. */
  function ShownName(selfUsername: string, username: string): (shown: string)
    ensures selfUsername == username ==> shown == SelfGreeting
    ensures selfUsername != username ==> shown == username
  {
    if selfUsername == username then SelfGreeting else username
  }

  /**
   * The greeting shows exactly on one's own profile, unless the other
   * player's username is itself "it be you".
   */
  lemma GreetingIffSelf(selfUsername: string, username: string)
    requires username != SelfGreeting
    ensures ShownName(selfUsername, username) == SelfGreeting <==> selfUsername == username
  {
  }

  /** The bio lines of a profile, none for a null profile. */
  function BioLines(profile: Option<UserProfile>): seq<string> {
    if profile.Some? then profile.value.bio else []
  }

  class ProfileScene {
    var deleteAccountOpen: bool
    var bioChangeOpen: bool
    var newBio: string

    constructor ()
      ensures !deleteAccountOpen && !bioChangeOpen && newBio == ""
    {
      deleteAccountOpen := false;
      bioChangeOpen := false;
      newBio := "";
    }

    method HandleOpenDeleteAccount()
      modifies this
      ensures deleteAccountOpen && bioChangeOpen == old(bioChangeOpen) && newBio == old(newBio)
    {
      deleteAccountOpen := true;
    }

    method HandleCloseDeleteAccount()
      modifies this
      ensures !deleteAccountOpen && bioChangeOpen == old(bioChangeOpen) && newBio == old(newBio)
    {
      deleteAccountOpen := false;
    }

    /** `handleOpenBioChange`: opens the editor on the draft of the bio (empty for a null profile). */
    method HandleOpenBioChange(profile: Option<UserProfile>)
      modifies this
      ensures bioChangeOpen && deleteAccountOpen == old(deleteAccountOpen)
      ensures newBio == Draft(BioLines(profile))
      ensures profile.None? ==> newBio == ""
    {
      bioChangeOpen := true;
      newBio := Draft(BioLines(profile));
    }

    method HandleCloseBioChange()
      modifies this
      ensures !bioChangeOpen && deleteAccountOpen == old(deleteAccountOpen) && newBio == old(newBio)
    {
      bioChangeOpen := false;
    }

    method HandleNewBioChange(text: string)
      modifies this
      ensures newBio == text && bioChangeOpen == old(bioChangeOpen) && deleteAccountOpen == old(deleteAccountOpen)
    {
      newBio := text;
    }

    /** `handleChangeBio`: hands on the draft split on '\n' and closes the editor. */
    method HandleChangeBio() returns (submitted: seq<string>)
      modifies this
      ensures submitted == SplitLines(old(newBio))
      ensures JoinLines(submitted) == old(newBio)
      ensures !bioChangeOpen && newBio == old(newBio) && deleteAccountOpen == old(deleteAccountOpen)
    {
      submitted := SplitLines(newBio);
      JoinSplit(newBio);
      bioChangeOpen := false;
    }
  }

  /** Open the editor and confirm without typing: the bio comes back with one empty line appended. */
  method EditBioUnchanged(scene: ProfileScene, profile: Option<UserProfile>) returns (submitted: seq<string>)
    requires NoLineBreaks(BioLines(profile))
    modifies scene
    ensures submitted == BioLines(profile) + [""]
    ensures !scene.bioChangeOpen
  {
    scene.HandleOpenBioChange(profile);
    submitted := scene.HandleChangeBio();
    SplitDraft(BioLines(profile));
  }
}
