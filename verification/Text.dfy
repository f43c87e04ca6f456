/** The string operations the agent edits configuration files with, and their laws.
Strings are sequences of characters; a separator is one character. */
module Text {

  predicate At(s: string, t: string, i: nat) {
    i + |t| <= |s| && s[i..i + |t|] == t
  }

  predicate Contains(s: string, t: string) {
    exists i: nat | i <= |s| :: At(s, t, i)
  }

  /** Splitting never yields an empty list: the empty string is one empty piece. */
  function Split(s: string, sep: char): (parts: seq<string>)
    ensures parts != []
  {
    if s == "" then [""] else Prepend(s[0], sep, Split(s[1..], sep))
  }

  /** A separator starts a new piece; any other character joins the first one. */
  function Prepend(c: char, sep: char, parts: seq<string>): (r: seq<string>)
    requires parts != []
    ensures r != []
  {
    if c == sep then [""] + parts else [[c] + parts[0]] + parts[1..]
  }

  function Join(parts: seq<string>, sep: char): string {
    if parts == [] then ""
    else if |parts| == 1 then parts[0]
    else parts[0] + [sep] + Join(parts[1..], sep)
  }

  ghost predicate Free(parts: seq<string>, c: char) {
    forall n :: 0 <= n < |parts| ==> c !in parts[n]
  }

  lemma {:induction false} JoinOfSplit(s: string, sep: char)
    ensures Join(Split(s, sep), sep) == s
  {
    if s != "" {
      var rest := Split(s[1..], sep);
      JoinOfSplit(s[1..], sep);
      if s[0] == sep {
        assert ([""] + rest)[1..] == rest;
      } else {
        var parts := [[s[0]] + rest[0]] + rest[1..];
        assert parts[1..] == rest[1..];
      }
    }
  }

  lemma {:induction false} SplitOfPiece(s: string, sep: char)
    requires sep !in s
    ensures Split(s, sep) == [s]
  {
    if s != "" {
      SplitOfPiece(s[1..], sep);
      assert [s[0]] + s[1..] == s;
    }
  }

  lemma PrependOfConcat(c: char, sep: char, a: seq<string>, b: seq<string>)
    requires a != []
    ensures Prepend(c, sep, a + b) == Prepend(c, sep, a) + b
  {
    if c == sep {
      assert [""] + (a + b) == ([""] + a) + b;
    } else {
      assert (a + b)[1..] == a[1..] + b;
      assert [[c] + a[0]] + (a[1..] + b) == ([[c] + a[0]] + a[1..]) + b;
    }
  }

  lemma {:induction false} SplitOfConcat(a: string, b: string, sep: char)
    ensures Split(a + [sep] + b, sep) == Split(a, sep) + Split(b, sep)
  {
    var s := a + [sep] + b;
    if a == "" {
      assert s[1..] == b;
    } else {
      assert s[1..] == a[1..] + [sep] + b;
      SplitOfConcat(a[1..], b, sep);
      PrependOfConcat(a[0], sep, Split(a[1..], sep), Split(b, sep));
    }
  }

  /** Splitting recovers any non-empty list of pieces that are free of the separator. */
  lemma {:induction false} SplitOfJoin(parts: seq<string>, sep: char)
    requires parts != [] && Free(parts, sep)
    ensures Split(Join(parts, sep), sep) == parts
  {
    if |parts| == 1 {
      SplitOfPiece(parts[0], sep);
    } else {
      SplitOfJoin(parts[1..], sep);
      SplitOfPiece(parts[0], sep);
      SplitOfConcat(parts[0], Join(parts[1..], sep), sep);
      assert [parts[0]] + parts[1..] == parts;
    }
  }

  /** A character missing from a string is missing from its pieces, and so is the separator. */
  lemma {:induction false} SplitIsFree(s: string, sep: char, c: char)
    requires c == sep || c !in s
    ensures Free(Split(s, sep), c)
  {
    if s != "" {
      SplitIsFree(s[1..], sep, c);
    }
  }

  lemma {:induction false} JoinIsFree(parts: seq<string>, sep: char, c: char)
    requires Free(parts, c) && c != sep
    ensures c !in Join(parts, sep)
  {
    if |parts| > 1 {
      JoinIsFree(parts[1..], sep, c);
    }
  }

  // ---------------------------------------------------------------- whole lines

  /** Empty, or ending in a newline. */
  predicate Terminated(text: string) {
    text == "" || text[|text| - 1] == '\n'
  }

  lemma {:induction false} TerminatedSplit(text: string)
    requires Terminated(text)
    ensures Split(text, '\n')[|Split(text, '\n')| - 1] == ""
  {
    if |text| > 1 {
      TerminatedSplit(text[1..]);
    }
  }

  /** Appending to a terminated text appends to its lines. */
  lemma SplitOfAppend(text: string, more: string)
    requires Terminated(text)
    ensures var ls := Split(text, '\n'); Split(text + more, '\n') == ls[..|ls| - 1] + Split(more, '\n')
  {
    var ls := Split(text, '\n');
    TerminatedSplit(text);
    if text == "" {
      assert text + more == more;
    } else {
      var body := text[..|text| - 1];
      assert text == body + ['\n'] + "";
      SplitOfConcat(body, "", '\n');
      assert text + more == body + ['\n'] + more;
      SplitOfConcat(body, more, '\n');
    }
  }

  lemma {:induction false} JoinTerminated(parts: seq<string>)
    requires parts != [] && parts[|parts| - 1] == ""
    ensures Terminated(Join(parts, '\n'))
  {
    if |parts| > 1 {
      JoinTerminated(parts[1..]);
    }
  }

  /** Where a whole line can occur in a text: as the end of the first line, or later. */
  lemma LineOccurs(first: string, rest: string, line: string)
    requires '\n' !in first && '\n' !in line
    ensures Contains(first + "\n" + rest, line + "\n") <==>
            (|line| <= |first| && first[|first| - |line|..] == line) || Contains(rest, line + "\n")
  {
    var s, t := first + "\n" + rest, line + "\n";
    forall i: nat | i <= |s| && At(s, t, i)
      ensures (|line| <= |first| && first[|first| - |line|..] == line) || Contains(rest, t)
    {
      LineOccursAt(first, rest, line, i);
    }
    if |line| <= |first| && first[|first| - |line|..] == line {
      assert s[|first| - |line|..|first| + 1] == first[|first| - |line|..] + "\n";
      assert At(s, t, |first| - |line|);
    }
    if Contains(rest, t) {
      var j: nat :| j <= |rest| && At(rest, t, j);
      assert s[j + |first| + 1..j + |first| + 1 + |t|] == rest[j..j + |t|];
      assert At(s, t, j + |first| + 1);
    }
  }

  lemma LineOccursAt(first: string, rest: string, line: string, i: nat)
    requires '\n' !in first && '\n' !in line
    requires At(first + "\n" + rest, line + "\n", i)
    ensures i + |line| == |first| ==> first[|first| - |line|..] == line
    ensures i + |line| == |first| || Contains(rest, line + "\n")
  {
    var s, t := first + "\n" + rest, line + "\n";
    assert s[i + |line|] == s[i..i + |t|][|line|] == '\n';
    assert forall n :: 0 <= n < |first| ==> s[n] == first[n] && first[n] in first;
    forall n | i <= n < i + |line| ensures s[n] != '\n' {
      assert s[n] == s[i..i + |t|][n - i] == line[n - i] && line[n - i] in line;
    }
    assert s[|first|] == '\n';
    if i + |line| == |first| {
      assert first[i..] == s[i..i + |t|][..|line|];
    } else {
      var j := i - |first| - 1;
      assert rest[j..j + |t|] == s[i..i + |t|];
      assert At(rest, t, j);
    }
  }

  // ---------------------------------------------------------------- white space

  /** The characters `strings.TrimSpace` removes. */
  predicate IsSpace(c: char) {
    c in {'\t', '\n', '\U{000B}', '\U{000C}', '\r', ' ', '\U{0085}', '\U{00A0}', '\U{1680}',
          '\U{2028}', '\U{2029}', '\U{202F}', '\U{205F}', '\U{3000}'}
    || '\U{2000}' <= c <= '\U{200A}'
  }

  predicate AllSpace(s: string) { forall n | 0 <= n < |s| :: IsSpace(s[n]) }

  function TrimLeft(s: string): string {
    if s != "" && IsSpace(s[0]) then TrimLeft(s[1..]) else s
  }

  function TrimRight(s: string): string {
    if s != "" && IsSpace(s[|s| - 1]) then TrimRight(s[..|s| - 1]) else s
  }

  function TrimSpace(s: string): string { TrimRight(TrimLeft(s)) }

  lemma {:induction false} TrimLeftPads(pad: string, s: string)
    requires AllSpace(pad) && (s != "" ==> !IsSpace(s[0]))
    ensures TrimLeft(pad + s) == s
  {
    if pad == "" {
      assert pad + s == s;
    } else {
      assert (pad + s)[1..] == pad[1..] + s;
      TrimLeftPads(pad[1..], s);
    }
  }

  lemma {:induction false} TrimRightPads(s: string, pad: string)
    requires AllSpace(pad) && (s != "" ==> !IsSpace(s[|s| - 1]))
    ensures TrimRight(s + pad) == s
  {
    if pad == "" {
      assert s + pad == s;
    } else {
      assert (s + pad)[..|s + pad| - 1] == s + pad[..|pad| - 1];
      TrimRightPads(s, pad[..|pad| - 1]);
    }
  }

  /** Trimming on the right stops at the first character that is not a space. */
  lemma {:induction false} TrimRightKeeps(s: string, tail: string)
    requires s != "" && !IsSpace(s[|s| - 1])
    ensures s <= TrimRight(s + tail)
  {
    if tail != "" {
      assert (s + tail)[..|s + tail| - 1] == s + tail[..|tail| - 1];
      TrimRightKeeps(s, tail[..|tail| - 1]);
    } else {
      assert s + tail == s;
    }
  }
}

/** `filepath.Join` on absolute directories: the join is cleaned lexically. */
module Paths {
  import opened Text

  /** Drops empty and "." elements and lets ".." remove the element before it. */
  function Clean(parts: seq<string>, stack: seq<string>): seq<string> {
    if parts == [] then stack
    else if parts[0] == "" || parts[0] == "." then Clean(parts[1..], stack)
    else if parts[0] == ".." then Clean(parts[1..], if stack == [] then [] else stack[..|stack| - 1])
    else Clean(parts[1..], stack + [parts[0]])
  }

  /** The elements of the joined path. */
  function Elements(dir: string, elem: string): seq<string> { Clean(Split(dir + "/" + elem, '/'), []) }

  function JoinPath(dir: string, elem: string): string { "/" + Join(Elements(dir, elem), '/') }

  /** A name that stands for itself inside a path. */
  predicate PlainName(s: string) { s != "" && '/' !in s && s != "." && s != ".." }

  ghost predicate Plain(parts: seq<string>) { forall n :: 0 <= n < |parts| ==> PlainName(parts[n]) }

  lemma {:induction false} CleanOfConcat(a: seq<string>, b: seq<string>, stack: seq<string>)
    ensures Clean(a + b, stack) == Clean(b, Clean(a, stack))
    decreases |a|
  {
    if a == [] {
      assert a + b == b;
    } else {
      assert (a + b)[1..] == a[1..] + b && (a + b)[0] == a[0];
      if a[0] == "" || a[0] == "." {
        CleanOfConcat(a[1..], b, stack);
      } else if a[0] == ".." {
        CleanOfConcat(a[1..], b, if stack == [] then [] else stack[..|stack| - 1]);
      } else {
        CleanOfConcat(a[1..], b, stack + [a[0]]);
      }
    }
  }

  lemma {:induction false} CleanOfPlain(parts: seq<string>, stack: seq<string>)
    requires Plain(parts)
    ensures Clean(parts, stack) == stack + parts
    decreases |parts|
  {
    if parts == [] {
      assert stack + parts == stack;
    } else {
      assert PlainName(parts[0]);
      CleanOfPlain(parts[1..], stack + [parts[0]]);
      assert stack + [parts[0]] + parts[1..] == stack + parts;
    }
  }

  lemma ParentUndoes(name: string, rest: seq<string>, stack: seq<string>)
    requires PlainName(name)
    ensures Clean([name] + ([".."] + rest), stack) == Clean(rest, stack)
  {
    var parts := [name] + ([".."] + rest);
    assert parts[0] == name && parts[1..] == [".."] + rest;
    assert parts[1..][0] == ".." && parts[1..][1..] == rest;
    assert (stack + [name])[..|stack|] == stack;
  }

  /** Whatever goes in, only plain names come out. */
  lemma {:induction false} CleanIsPlain(parts: seq<string>, stack: seq<string>)
    requires Free(parts, '/') && Plain(stack)
    ensures Plain(Clean(parts, stack))
    decreases |parts|
  {
    if parts != [] {
      if parts[0] == "" || parts[0] == "." {
        CleanIsPlain(parts[1..], stack);
      } else if parts[0] == ".." {
        CleanIsPlain(parts[1..], if stack == [] then [] else stack[..|stack| - 1]);
      } else {
        CleanIsPlain(parts[1..], stack + [parts[0]]);
      }
    }
  }

  /** Below a clean absolute directory only the joined element is cleaned. */
  lemma ElementsBelow(root: seq<string>, elem: string)
    requires root != [] && Plain(root)
    ensures Elements("/" + Join(root, '/'), elem) == Clean(Split(elem, '/'), root)
    ensures Plain(Elements("/" + Join(root, '/'), elem))
  {
    var dir := "/" + Join(root, '/');
    assert dir + "/" + elem == dir + ['/'] + elem;
    SplitOfConcat(dir, elem, '/');
    assert dir == "" + ['/'] + Join(root, '/');
    SplitOfConcat("", Join(root, '/'), '/');
    assert Free(root, '/') by {
      assert forall n :: 0 <= n < |root| ==> PlainName(root[n]);
    }
    SplitOfJoin(root, '/');
    assert Split(dir, '/') == [""] + root;
    CleanOfConcat([""] + root, Split(elem, '/'), []);
    CleanOfConcat([""], root, []);
    assert Clean([""], []) == [];
    CleanOfPlain(root, []);
    assert [] + root == root;
    SplitIsFree(elem, '/', '/');
    CleanIsPlain(Split(elem, '/'), root);
  }

  /** One element is filed under its own name exactly when that name is plain. */
  lemma OneBelow(root: seq<string>, name: string)
    requires root != [] && Plain(root)
    ensures Elements("/" + Join(root, '/'), name) == root + [name] <==> PlainName(name)
  {
    ElementsBelow(root, name);
    if PlainName(name) {
      SplitOfPiece(name, '/');
      assert Plain([name]);
      CleanOfPlain([name], root);
    } else {
      assert (root + [name])[|root|] == name;
    }
  }

  /** Two elements are filed under their own names exactly when both names are plain. */
  lemma TwoBelow(root: seq<string>, a: string, b: string)
    requires root != [] && Plain(root)
    ensures Elements("/" + Join(root, '/'), a + "/" + b) == root + [a, b] <==> PlainName(a) && PlainName(b)
  {
    ElementsBelow(root, a + "/" + b);
    if PlainName(a) && PlainName(b) {
      assert a + "/" + b == a + ['/'] + b;
      SplitOfConcat(a, b, '/');
      SplitOfPiece(a, '/');
      SplitOfPiece(b, '/');
      assert [a] + [b] == [a, b] && Plain([a, b]);
      CleanOfPlain([a, b], root);
    } else {
      assert (root + [a, b])[|root|] == a && (root + [a, b])[|root| + 1] == b;
    }
  }

  lemma {:induction false} CleanIsFree(parts: seq<string>, stack: seq<string>, c: char)
    requires Free(parts, c) && Free(stack, c)
    ensures Free(Clean(parts, stack), c)
  {
    if parts != [] {
      if parts[0] == "" || parts[0] == "." {
        CleanIsFree(parts[1..], stack, c);
      } else if parts[0] == ".." {
        CleanIsFree(parts[1..], if stack == [] then [] else stack[..|stack| - 1], c);
      } else {
        CleanIsFree(parts[1..], stack + [parts[0]], c);
      }
    }
  }

  /** Joining paths invents no character but the separator. */
  lemma JoinPathIsFree(dir: string, elem: string, c: char)
    requires c !in dir && c !in elem && c != '/'
    ensures c !in JoinPath(dir, elem)
  {
    SplitIsFree(dir + "/" + elem, '/', c);
    CleanIsFree(Split(dir + "/" + elem, '/'), [], c);
    JoinIsFree(Clean(Split(dir + "/" + elem, '/'), []), '/', c);
  }
}
