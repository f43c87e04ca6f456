/** Editing the OpenDKIM tables: a text file is appended to after a substring test, and
rewritten by splitting it into lines, dropping some and joining the rest. */
module TableFiles {
  import opened Text
  import opened Messages

  /** The text after `appendUnique`. */
  function Appended(text: string, entry: string): string {
    if Contains(text, entry) then text else text + entry
  }

  /** The lines that do not contain the marker. */
  function Kept(lines: seq<string>, marker: string): seq<string> {
    if lines == [] then []
    else (if Contains(lines[0], marker) then [] else [lines[0]]) + Kept(lines[1..], marker)
  }

  /** The text after `removeLines`. */
  function Removed(text: string, marker: string): string {
    Join(Kept(Split(text, '\n'), marker), '\n')
  }

  /** What writing a file comes to: all of it, an error opening it, or an error after some
      characters. */
  datatype Write = Written | Unopened | Partial(length: nat)

  function Start(text: string, n: nat): string { if n < |text| then text[..n] else text }

  /** What an append leaves. The read error is ignored: an unreadable file counts as empty. */
  function AppendLeaves(text: string, entry: string, readable: bool, write: Write): string {
    if Contains(if readable then text else "", entry) then text
    else match write
      case Written => text + entry
      case Unopened => text
      case Partial(n) => text + Start(entry, n)
  }

  /** What a rewrite leaves: opening the file for it empties it. */
  function RemoveLeaves(text: string, marker: string, readable: bool, write: Write): string {
    if !readable then text
    else match write
      case Written => Removed(text, marker)
      case Unopened => text
      case Partial(n) => Start(Removed(text, marker), n)
  }

  lemma EndContains(text: string, entry: string)
    ensures Contains(text + entry, entry) && (Contains("", entry) ==> Contains(text, entry))
  {
    assert At(text + entry, entry, |text|);
    if Contains("", entry) {
      assert At(text, entry, 0);
    }
  }

  class TableFile {
    /** The file's contents, if it exists. */
    var data: Option<string>

    ghost function Contents(): string
      reads this
    {
      data.Or("")
    }

    constructor (data: Option<string>)
      ensures this.data == data
    {
      this.data := data;
    }

    /** The append creates a missing file. */
    method AppendUnique(entry: string, readable: bool, write: Write) returns (ok: bool)
      modifies this
      ensures Contents() == AppendLeaves(old(Contents()), entry, readable, write)
      ensures ok && readable ==> Contents() == Appended(old(Contents()), entry)
      ensures ok ==> Contains(Contents(), entry)
      ensures !ok ==> old(Contents()) <= Contents() <= old(Contents()) + entry && write != Written
      ensures write == Written ==> ok
    {
      var text := data.Or("");
      EndContains(text, entry);
      if Contains(if readable then text else "", entry) {
        return true;
      }
      match write
      case Unopened => return false;
      case Partial(n) =>
        data := Some(text + Start(entry, n));
        return false;
      case Written =>
        data := Some(text + entry);
        return true;
    }

    /** A missing file is left missing. */
    method RemoveLines(marker: string, readable: bool, write: Write) returns (ok: bool)
      modifies this
      ensures ok <==> old(data) == None || (readable && write == Written)
      ensures old(data) == None ==> data == None
      ensures old(data).Some? ==> data == Some(RemoveLeaves(old(data).value, marker, readable, write))
      ensures data == old(data) || Contents() <= Removed(old(Contents()), marker)
    {
      if data == None {
        return true;
      }
      if !readable {
        return false;
      }
      var kept: seq<string> := [];
      var lines := Split(data.value, '\n');
      for n := 0 to |lines|
        invariant kept == Kept(lines[..n], marker) && data == old(data)
      {
        assert lines[..n + 1] == lines[..n] + [lines[n]];
        KeptOfSnoc(lines[..n], lines[n], marker);
        if !Contains(lines[n], marker) {
          kept := kept + [lines[n]];
        }
      }
      assert lines[..|lines|] == lines;
      match write
      case Unopened => return false;
      case Partial(n) =>
        data := Some(Start(Join(kept, '\n'), n));
        return false;
      case Written =>
        data := Some(Join(kept, '\n'));
        return true;
    }
  }

  // ---------------------------------------------------------------- laws of the two edits

  ghost predicate NoneContains(lines: seq<string>, marker: string) {
    forall n :: 0 <= n < |lines| ==> !Contains(lines[n], marker)
  }

  lemma {:induction false} KeptOfConcat(a: seq<string>, b: seq<string>, marker: string)
    ensures Kept(a + b, marker) == Kept(a, marker) + Kept(b, marker)
  {
    if a == [] {
      assert a + b == b;
    } else {
      assert (a + b)[1..] == a[1..] + b;
      KeptOfConcat(a[1..], b, marker);
    }
  }

  lemma KeptOfSnoc(a: seq<string>, line: string, marker: string)
    ensures Kept(a + [line], marker) == if Contains(line, marker) then Kept(a, marker) else Kept(a, marker) + [line]
  {
    KeptOfConcat(a, [line], marker);
    assert Kept([line][1..], marker) == [];
  }

  lemma {:induction false} KeptAll(lines: seq<string>, marker: string)
    requires NoneContains(lines, marker)
    ensures Kept(lines, marker) == lines
  {
    if lines != [] {
      KeptAll(lines[1..], marker);
    }
  }

  lemma {:induction false} KeptHasNone(lines: seq<string>, marker: string, c: char)
    ensures NoneContains(Kept(lines, marker), marker)
    ensures Free(lines, c) ==> Free(Kept(lines, marker), c)
  {
    if lines != [] {
      KeptHasNone(lines[1..], marker, c);
    }
  }

  /** How often each line is left by a removal. */
  lemma {:induction false} KeptCounts(lines: seq<string>, marker: string, line: string)
    ensures multiset(Kept(lines, marker))[line] == if Contains(line, marker) then 0 else multiset(lines)[line]
  {
    if lines != [] {
      assert lines == [lines[0]] + lines[1..];
      KeptCounts(lines[1..], marker, line);
    }
  }

  lemma EmptyContainsNothing(marker: string)
    requires marker != ""
    ensures !Contains("", marker)
  {
  }

  /** The lines of the text after a removal are the kept lines, and no line has the marker. */
  lemma LinesAfterRemoval(text: string, marker: string)
    requires marker != ""
    ensures
      var kept := Kept(Split(text, '\n'), marker);
      Split(Removed(text, marker), '\n') == if kept == [] then [""] else kept
    ensures NoneContains(Split(Removed(text, marker), '\n'), marker)
  {
    var lines := Split(text, '\n');
    SplitIsFree(text, '\n', '\n');
    KeptHasNone(lines, marker, '\n');
    EmptyContainsNothing(marker);
    if Kept(lines, marker) != [] {
      SplitOfJoin(Kept(lines, marker), '\n');
    }
  }

  /** Both edits keep a text empty or newline-terminated. */
  lemma EditsStayTerminated(text: string, entry: string, marker: string)
    requires Terminated(text) && entry != "" && Terminated(entry) && marker != ""
    ensures Terminated(Appended(text, entry)) && Terminated(Removed(text, marker))
  {
    var lines := Split(text, '\n');
    TerminatedSplit(text);
    EmptyContainsNothing(marker);
    assert lines == lines[..|lines| - 1] + [""];
    KeptOfConcat(lines[..|lines| - 1], [""], marker);
    JoinTerminated(Kept(lines, marker));
  }

  lemma AppendIsIdempotent(text: string, entry: string)
    ensures Appended(Appended(text, entry), entry) == Appended(text, entry)
  {
    if !Contains(text, entry) {
      assert (text + entry)[|text|..|text| + |entry|] == entry;
      assert At(text + entry, entry, |text|);
    }
  }

  lemma RemovalIsIdempotent(text: string, marker: string)
    requires marker != ""
    ensures Removed(Removed(text, marker), marker) == Removed(text, marker)
  {
    LinesAfterRemoval(text, marker);
    KeptAll(Split(Removed(text, marker), '\n'), marker);
    JoinOfSplit(Removed(text, marker), '\n');
  }

  lemma SliceOfSlice(s: string, i: nat, k: nat, j: nat, n: nat)
    requires i + k <= |s| && j + n <= k
    ensures s[i..i + k][j..j + n] == s[i + j..i + j + n]
  {
    var a, b := s[i..i + k][j..j + n], s[i + j..i + j + n];
    assert forall m :: 0 <= m < n ==> a[m] == b[m];
  }

  lemma ContainsComposes(s: string, t: string, u: string, i: nat)
    requires At(s, t, i) && Contains(t, u)
    ensures Contains(s, u)
  {
    var j: nat :| j <= |t| && At(t, u, j);
    SliceOfSlice(s, i, |t|, j, |u|);
    assert At(s, u, i + j);
  }

  lemma EntryHasNewline(text: string, line: string)
    requires Contains(text, line + "\n")
    ensures '\n' in text
  {
    var i: nat :| i <= |text| && At(text, line + "\n", i);
    assert text[i + |line|] == text[i..i + |line| + 1][|line|] == '\n';
  }

  /** A text holding a whole entry has a line that contains whatever the entry's line does. */
  lemma {:induction false} SomeLineContains(text: string, line: string, marker: string)
    requires '\n' !in line && Contains(text, line + "\n") && Contains(line, marker)
    ensures !NoneContains(Split(text, '\n'), marker)
    decreases |text|
  {
    hide Contains;
    var lines := Split(text, '\n');
    JoinOfSplit(text, '\n');
    SplitIsFree(text, '\n', '\n');
    EntryHasNewline(text, line);
    if |lines| > 1 {
      var first, rest := lines[0], Join(lines[1..], '\n');
      assert text == first + "\n" + rest;
      LineOccurs(first, rest, line);
      SplitOfJoin(lines[1..], '\n');
      if |line| <= |first| && first[|first| - |line|..] == line {
        ContainsComposes(first, line, marker, |first| - |line|);
      } else {
        SomeLineContains(rest, line, marker);
        var n :| 0 <= n < |lines[1..]| && Contains(lines[1..][n], marker);
        assert Contains(lines[n + 1], marker);
      }
    }
  }

  lemma EntrySplits(line: string)
    requires '\n' !in line
    ensures Split(line + "\n", '\n') == [line] + [""]
  {
    SplitOfConcat(line, "", '\n');
    SplitOfPiece(line, '\n');
    assert line + ['\n'] + "" == line + "\n";
  }

  /** The lines of a terminated text followed by one entry. */
  lemma LinesWithEntry(text: string, line: string)
    requires Terminated(text) && '\n' !in line
    ensures var lines := Split(text, '\n');
      lines == lines[..|lines| - 1] + [""]
      && Split(text + (line + "\n"), '\n') == lines[..|lines| - 1] + ([line] + [""])
  {
    TerminatedSplit(text);
    SplitOfAppend(text, line + "\n");
    EntrySplits(line);
  }

  lemma KeptDropsEntry(init: seq<string>, line: string, marker: string)
    requires NoneContains(init, marker) && Contains(line, marker) && marker != ""
    ensures Kept(init + ([line] + [""]), marker) == init + [""]
  {
    KeptOfConcat(init, [line] + [""], marker);
    KeptOfConcat([line], [""], marker);
    KeptAll(init, marker);
    EmptyContainsNothing(marker);
    assert Kept([line], marker) == Kept([], marker);
    assert Kept([""], marker) == [""] + Kept([], marker);
  }

  /** Setting a line up and removing it by a marker it contains gives back the original text,
      byte for byte, exactly when no line of the original contains the marker. */
  lemma AppendThenRemove(text: string, line: string, marker: string)
    requires Terminated(text) && marker != "" && '\n' !in line && Contains(line, marker)
    ensures Removed(Appended(text, line + "\n"), marker) == text <==> NoneContains(Split(text, '\n'), marker)
  {
    LinesAfterRemoval(Appended(text, line + "\n"), marker);
    if NoneContains(Split(text, '\n'), marker) {
      UndoesWhenClean(text, line, marker);
    }
  }

  lemma UndoesWhenClean(text: string, line: string, marker: string)
    requires Terminated(text) && marker != "" && '\n' !in line && Contains(line, marker)
    requires NoneContains(Split(text, '\n'), marker)
    ensures !Contains(text, line + "\n") && Removed(text + (line + "\n"), marker) == text
  {
    var lines := Split(text, '\n');
    if Contains(text, line + "\n") {
      SomeLineContains(text, line, marker);
    }
    LinesWithEntry(text, line);
    KeptDropsEntry(lines[..|lines| - 1], line, marker);
    JoinOfSplit(text, '\n');
  }
}
