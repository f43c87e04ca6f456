/** PEM unwrapping: the public key loses its fences, blank lines and padding. */
module Pem {
  import opened Text

  function Concat(parts: seq<string>): string {
    if parts == [] then "" else parts[0] + Concat(parts[1..])
  }

  predicate Dropped(line: string) { line == "" || "-----" <= line }

  function Bodies(lines: seq<string>): seq<string> {
    if lines == [] then []
    else
      var line := TrimSpace(lines[0]);
      (if Dropped(line) then [] else [line]) + Bodies(lines[1..])
  }

  function Stripped(pem: string): string { Concat(Bodies(Split(pem, '\n'))) }

  lemma {:induction false} BodiesOfSnoc(a: seq<string>, s: string)
    ensures Bodies(a + [s]) == if Dropped(TrimSpace(s)) then Bodies(a) else Bodies(a) + [TrimSpace(s)]
  {
    if a == [] {
      assert Bodies([s][1..]) == [];
    } else {
      assert (a + [s])[1..] == a[1..] + [s];
      BodiesOfSnoc(a[1..], s);
    }
  }

  method StripPemHeaders(pem: string) returns (r: string)
    ensures r == Stripped(pem)
  {
    var lines: seq<string> := [];
    var all := Split(pem, '\n');
    for n := 0 to |all|
      invariant lines == Bodies(all[..n])
    {
      var line := TrimSpace(all[n]);
      BodiesOfSnoc(all[..n], all[n]);
      assert all[..n] + [all[n]] == all[..n + 1];
      if !Dropped(line) {
        lines := lines + [line];
      }
    }
    assert all[..|all|] == all;
    r := JoinPlain(lines);
  }

  /** `strings.Join` with an empty separator. */
  method JoinPlain(parts: seq<string>) returns (r: string)
    ensures r == Concat(parts)
  {
    r := "";
    for n := 0 to |parts|
      invariant r + Concat(parts[n..]) == Concat(parts)
    {
      assert parts[n..][1..] == parts[n + 1..];
      r := r + parts[n];
    }
    assert r + Concat([]) == r;
  }

  // ---------------------------------------------------------------- wrapped text

  /** One line of a wrapped key, padding included. */
  datatype PemLine =
    | Fence(before: string, text: string)          // "-----" and anything after it
    | Blank(before: string)
    | Body(before: string, base64: string, after: string)

  predicate Base64Char(c: char) {
    'A' <= c <= 'Z' || 'a' <= c <= 'z' || '0' <= c <= '9' || c in {'+', '/', '='}
  }

  ghost predicate WellFormed(l: PemLine) {
    match l
    case Fence(before, text) => AllSpace(before) && '\n' !in before && '\n' !in text
    case Blank(before) => AllSpace(before) && '\n' !in before
    case Body(before, base64, after) =>
      && AllSpace(before) && '\n' !in before && AllSpace(after) && '\n' !in after && Chunk(base64)
  }

  /** A line of the key itself: any text that trimming leaves alone and that is no fence. */
  predicate Chunk(s: string) {
    s != "" && !IsSpace(s[0]) && !IsSpace(s[|s| - 1]) && '\n' !in s && !("-----" <= s)
  }

  lemma Base64IsChunk(s: string)
    requires s != "" && forall n :: 0 <= n < |s| ==> Base64Char(s[n])
    ensures Chunk(s)
  {
    assert Base64Char(s[0]) && Base64Char(s[|s| - 1]);
  }

  function Render(l: PemLine): string {
    match l
    case Fence(before, text) => before + ("-----" + text)
    case Blank(before) => before
    case Body(before, base64, after) => before + (base64 + after)
  }

  function RenderAll(ls: seq<PemLine>): seq<string> {
    if ls == [] then [] else [Render(ls[0])] + RenderAll(ls[1..])
  }

  /** The key itself: the base64 chunks in order. */
  function Payload(ls: seq<PemLine>): string {
    if ls == [] then "" else (if ls[0].Body? then ls[0].base64 else "") + Payload(ls[1..])
  }

  lemma TrimOfRendered(l: PemLine)
    requires WellFormed(l)
    ensures var line := TrimSpace(Render(l));
      if l.Body? then line == l.base64 && !Dropped(line) else Dropped(line)
    ensures '\n' !in Render(l)
  {
    match l
    case Fence(before, text) =>
      TrimLeftPads(before, "-----" + text);
      TrimRightKeeps("-----", text);
    case Blank(before) =>
      assert before + "" == before;
      TrimLeftPads(before, "");
    case Body(before, base64, after) =>
      assert (base64 + after)[0] == base64[0];
      TrimLeftPads(before, base64 + after);
      TrimRightPads(base64, after);
  }

  lemma {:induction false} BodiesOfRendered(ls: seq<PemLine>)
    requires forall n :: 0 <= n < |ls| ==> WellFormed(ls[n])
    ensures Concat(Bodies(RenderAll(ls))) == Payload(ls)
    ensures Free(RenderAll(ls), '\n') && |RenderAll(ls)| == |ls|
  {
    if ls != [] {
      TrimOfRendered(ls[0]);
      BodiesOfRendered(ls[1..]);
      var lines := RenderAll(ls);
      assert lines[1..] == RenderAll(ls[1..]);
      if ls[0].Body? {
        assert Bodies(lines) == [ls[0].base64] + Bodies(lines[1..]);
        assert Bodies(lines)[1..] == Bodies(lines[1..]);
      } else {
        assert Bodies(lines) == [] + Bodies(lines[1..]) == Bodies(lines[1..]);
      }
    }
  }

  /** Unwrapping inverts wrapping, however the key was chunked, fenced and padded. */
  lemma UnwrapInvertsWrap(ls: seq<PemLine>)
    requires ls != [] && forall n :: 0 <= n < |ls| ==> WellFormed(ls[n])
    ensures Stripped(Join(RenderAll(ls), '\n')) == Payload(ls)
  {
    BodiesOfRendered(ls);
    SplitOfJoin(RenderAll(ls), '\n');
  }

  /** The chunks of a key, each on its own line, with or without carriage returns. */
  function Chunks(chunks: seq<string>, eol: string): seq<PemLine> {
    if chunks == [] then [] else [Body("", chunks[0], eol)] + Chunks(chunks[1..], eol)
  }

  lemma {:induction false} ChunksAreKey(chunks: seq<string>, eol: string)
    requires eol == "" || eol == "\r"
    requires forall n :: 0 <= n < |chunks| ==> Chunk(chunks[n])
    ensures Payload(Chunks(chunks, eol)) == Concat(chunks)
    ensures forall n :: 0 <= n < |Chunks(chunks, eol)| ==> WellFormed(Chunks(chunks, eol)[n])
  {
    if chunks != [] {
      ChunksAreKey(chunks[1..], eol);
      var ls := Chunks(chunks, eol);
      assert ls[1..] == Chunks(chunks[1..], eol);
      assert forall n :: 0 < n < |ls| ==> ls[n] == ls[1..][n - 1];
    }
  }

  /** A public key as it is written to a file: header, chunks, footer and a last newline. */
  function KeyFileLines(chunks: seq<string>, eol: string): seq<PemLine> {
    [Fence("", "BEGIN PUBLIC KEY-----" + eol)]
    + (Chunks(chunks, eol) + [Fence("", "END PUBLIC KEY-----" + eol), Blank("")])
  }

  lemma FencesAreFine(eol: string)
    requires eol == "" || eol == "\r"
    ensures WellFormed(Fence("", "BEGIN PUBLIC KEY-----" + eol)) && WellFormed(Fence("", "END PUBLIC KEY-----" + eol))
    ensures WellFormed(Blank(""))
  {
    assert '\n' !in "BEGIN PUBLIC KEY-----" && '\n' !in "END PUBLIC KEY-----" && '\n' !in eol;
  }

  lemma KeyFilePayload(chunks: seq<string>, eol: string)
    requires Payload(Chunks(chunks, eol)) == Concat(chunks)
    ensures Payload(KeyFileLines(chunks, eol)) == Concat(chunks)
  {
    var head, tail := Fence("", "BEGIN PUBLIC KEY-----" + eol), [Fence("", "END PUBLIC KEY-----" + eol), Blank("")];
    var rest := Chunks(chunks, eol) + tail;
    PayloadOfConcat(Chunks(chunks, eol), tail);
    assert tail[1..] == [Blank("")] && tail[1..][1..] == [];
    assert Payload([Blank("")]) == "" + Payload([]);
    assert Payload(tail) == "" + Payload(tail[1..]);
    assert ([head] + rest)[1..] == rest && ([head] + rest)[0] == head;
  }

  lemma KeyFileUnwraps(chunks: seq<string>, eol: string)
    requires eol == "" || eol == "\r"
    requires forall n :: 0 <= n < |chunks| ==>
               chunks[n] != "" && forall k :: 0 <= k < |chunks[n]| ==> Base64Char(chunks[n][k])
    ensures Stripped(Join(RenderAll(KeyFileLines(chunks, eol)), '\n')) == Concat(chunks)
  {
    forall n | 0 <= n < |chunks| ensures Chunk(chunks[n]) {
      Base64IsChunk(chunks[n]);
    }
    ChunksAreKey(chunks, eol);
    FencesAreFine(eol);
    KeyFilePayload(chunks, eol);
    UnwrapInvertsWrap(KeyFileLines(chunks, eol));
  }

  lemma {:induction false} PayloadOfConcat(a: seq<PemLine>, b: seq<PemLine>)
    ensures Payload(a + b) == Payload(a) + Payload(b)
  {
    if a == [] {
      assert a + b == b;
    } else {
      assert (a + b)[1..] == a[1..] + b;
      PayloadOfConcat(a[1..], b);
    }
  }
}

/** The KeyTable and SigningTable of OpenDKIM as printed lists of domains. */
module OpenDkim {
  import opened Messages
  import opened Text
  import opened Paths
  import opened TableFiles
  import Pem

  datatype Table = KeyTable | SigningTable

  const KEY_DIR := "/etc/opendkim/keys"
  const UNDER := "_domainkey."

  function KeyFile(domain: string): string {
    JoinPath(JoinPath(KEY_DIR, domain), "mail.private")
  }

  /** The part of a table line before its "_domainkey.". */
  function Head(t: Table, domain: string): string {
    match t
    case KeyTable => "mail."
    case SigningTable => "*@" + domain + " " + "mail."
  }

  function Tail(t: Table, domain: string): string {
    match t
    case KeyTable => domain + " " + (domain + ":mail:" + KeyFile(domain))
    case SigningTable => domain
  }

  function Line(t: Table, domain: string): string { Head(t, domain) + UNDER + Tail(t, domain) }

  function Marker(domain: string): string { "." + UNDER + domain }

  ghost predicate Name(domain: string) {
    domain != "" && '_' !in domain && ' ' !in domain && '\n' !in domain
  }

  ghost predicate Names(ds: seq<string>) { forall n :: 0 <= n < |ds| ==> Name(ds[n]) }

  /** The text of a table that lists these domains. */
  function Print(t: Table, ds: seq<string>): string {
    if ds == [] then "" else Line(t, ds[0]) + "\n" + Print(t, ds[1..])
  }

  // ---------------------------------------------------------------- lines and markers

  lemma LineChars(t: Table, d: string)
    requires Name(d)
    ensures '\n' !in Line(t, d) && '_' !in Head(t, d) && '_' !in Tail(t, d)
  {
    JoinPathIsFree(KEY_DIR, d, '_');
    JoinPathIsFree(KEY_DIR, d, '\n');
    JoinPathIsFree(JoinPath(KEY_DIR, d), "mail.private", '_');
    JoinPathIsFree(JoinPath(KEY_DIR, d), "mail.private", '\n');
  }

  /** A table line has one underscore, where "_domainkey." starts. */
  lemma UnderscoreAt(t: Table, d: string, n: nat)
    requires Name(d) && n < |Line(t, d)|
    ensures Line(t, d)[n] == '_' <==> n == |Head(t, d)|
  {
    LineChars(t, d);
    var h, u, l := Head(t, d), UNDER, Tail(t, d);
    assert Line(t, d)[n] == if n < |h| then h[n] else if n < |h| + |u| then u[n - |h|] else l[n - |h| - |u|];
    assert forall k :: 0 <= k < |u| ==> (u[k] == '_' <==> k == 0);
  }

  lemma PrefixOfTail(t: Table, d: string, e: string)
    requires Name(d)
    ensures d <= Tail(t, e) <==> d <= e
  {
    assert forall n :: 0 <= n < |d| ==> d[n] != ' ';
    assert t == KeyTable ==> Tail(t, e)[|e|] == ' ';
  }

  lemma MarkerAligns(t: Table, d: string, e: string, i: nat)
    requires Name(e) && At(Line(t, e), Marker(d), i)
    ensures i + 1 == |Head(t, e)|
  {
    var s, m := Line(t, e), Marker(d);
    assert s[i + 1] == s[i..i + |m|][1] == m[1] == '_';
    UnderscoreAt(t, e, i + 1);
  }

  /** What follows a marker's fixed part is the domain looked for. */
  lemma AfterUnder(s: string, h: string, tail: string, d: string, i: nat)
    requires s == h + UNDER + tail && i + 1 == |h| && At(s, Marker(d), i)
    ensures d <= tail
  {
    var m, k := Marker(d), |UNDER| + 1;
    SliceOfSlice(s, i, |m|, k, |d|);
    assert m[k..] == d;
    assert s[i + k..] == tail;
  }

  lemma MarkerPresent(t: Table, d: string, e: string)
    requires d <= Tail(t, e)
    ensures At(Line(t, e), Marker(d), |Head(t, e)| - 1)
  {
    var s, h := Line(t, e), Head(t, e);
    var i := |h| - 1;
    assert h[i] == '.';
    assert s == (h[..i] + Marker(d)) + Tail(t, e)[|d|..];
  }

  /** The marker of `d` occurs in the line of `e` exactly when `d` is a prefix of `e`. */
  lemma MarkerInLine(t: Table, d: string, e: string)
    requires Name(d) && Name(e)
    ensures Contains(Line(t, e), Marker(d)) <==> d <= e
  {
    PrefixOfTail(t, d, e);
    if Contains(Line(t, e), Marker(d)) {
      var i: nat :| i <= |Line(t, e)| && At(Line(t, e), Marker(d), i);
      MarkerAligns(t, d, e, i);
      AfterUnder(Line(t, e), Head(t, e), Tail(t, e), d, i);
    }
    if d <= e {
      MarkerPresent(t, d, e);
    }
  }

  lemma TailIsInjective(t: Table, d: string, e: string)
    requires Name(d) && Name(e) && Tail(t, d) == Tail(t, e)
    ensures d == e
  {
    assert d <= Tail(t, d) && e <= Tail(t, e);
    PrefixOfTail(t, d, e);
    PrefixOfTail(t, e, d);
  }

  /** One line ends with another only if they are the same line. */
  lemma SuffixIsWhole(t: Table, d: string, e: string)
    requires Name(d) && Name(e) && |Line(t, d)| <= |Line(t, e)|
    requires Line(t, e)[|Line(t, e)| - |Line(t, d)|..] == Line(t, d)
    ensures d == e
  {
    var o := |Line(t, e)| - |Line(t, d)|;
    var n := |Head(t, d)|;
    UnderscoreAt(t, d, n);
    assert Line(t, e)[o + n] == Line(t, e)[o..][n];
    UnderscoreAt(t, e, o + n);
    assert Line(t, d)[n + |UNDER|..] == Tail(t, d);
    assert Line(t, e)[o + n + |UNDER|..] == Tail(t, e);
    assert Line(t, e)[o..][n + |UNDER|..] == Line(t, e)[o + n + |UNDER|..];
    TailIsInjective(t, d, e);
  }

  lemma SuffixIff(t: Table, d: string, e: string)
    requires Name(d) && Name(e)
    ensures var first, line := Line(t, e), Line(t, d);
      |line| <= |first| && first[|first| - |line|..] == line <==> d == e
  {
    var first, line := Line(t, e), Line(t, d);
    if |line| <= |first| && first[|first| - |line|..] == line {
      SuffixIsWhole(t, d, e);
    }
    if d == e {
      assert first[0..] == line;
    }
  }

  // ---------------------------------------------------------------- what a line says

  /** A domain whose line can be read back. */
  ghost predicate Readable(d: string) { Name(d) && PlainName(d) && ':' !in d }

  /** The line signs the mail of every address of the domain with the domain's key name. */
  predicate SigningReads(line: string, d: string) {
    Split(line, ' ') == ["*@" + d, "mail._domainkey." + d]
  }

  /** The line gives that key name the domain, the selector and the domain's private key. */
  predicate KeyReads(line: string, d: string) {
    var words := Split(line, ' ');
    && |words| == 2 && words[0] == "mail._domainkey." + d
    && Split(words[1], ':') == [d, "mail", "/etc/opendkim/keys/" + d + "/mail.private"]
  }

  predicate Reads(t: Table, line: string, d: string) {
    match t
    case KeyTable => KeyReads(line, d)
    case SigningTable => SigningReads(line, d)
  }

  lemma KeyFileIs(d: string)
    requires PlainName(d)
    ensures KeyFile(d) == "/etc/opendkim/keys/" + d + "/mail.private"
  {
    var root := ["etc", "opendkim", "keys"];
    var dir := root + [d];
    assert PlainName("etc") && PlainName("opendkim") && PlainName("keys") && PlainName("mail.private");
    assert Plain(root) && Plain(dir);
    KeyDirIs();
    OneBelow(root, d);
    OneBelow(dir, "mail.private");
    JoinOfPlain(["keys"], d);
    JoinFive(d);
  }

  lemma KeyDirIs()
    ensures KEY_DIR == "/" + Join(["etc", "opendkim", "keys"], '/')
  {
    var root := ["etc", "opendkim", "keys"];
    assert root[1..] == ["opendkim", "keys"] && root[1..][1..] == ["keys"];
    assert Join(["opendkim", "keys"], '/') == "opendkim" + "/" + "keys";
    assert "/" + ("etc" + "/" + ("opendkim" + "/" + "keys")) == KEY_DIR;
  }

  lemma JoinOfPlain(a: seq<string>, d: string)
    requires a != []
    ensures Join(a + [d], '/') == Join(a, '/') + "/" + d
    decreases |a|
  {
    if |a| == 1 {
      assert (a + [d])[1..] == [d];
    } else {
      assert (a + [d])[1..] == a[1..] + [d];
      JoinOfPlain(a[1..], d);
    }
  }

  lemma JoinFive(d: string)
    ensures "/" + Join(["etc", "opendkim", "keys"] + [d] + ["mail.private"], '/')
            == "/etc/opendkim/keys/" + d + "/mail.private"
  {
    var root := ["etc", "opendkim", "keys"];
    KeyDirIs();
    JoinOfPlain(root, d);
    JoinOfPlain(root + [d], "mail.private");
    assert "/" + (Join(root, '/') + "/" + d + "/" + "mail.private") == KEY_DIR + "/" + d + "/" + "mail.private";
    assert KEY_DIR + "/" + d + "/" + "mail.private" == "/etc/opendkim/keys/" + d + "/mail.private";
  }

  lemma TwoPieces(a: string, b: string, sep: char)
    requires sep !in a && sep !in b
    ensures Split(a + [sep] + b, sep) == [a, b]
  {
    SplitOfConcat(a, b, sep);
    SplitOfPiece(a, sep);
    SplitOfPiece(b, sep);
  }

  lemma ThreePieces(a: string, b: string, c: string, sep: char)
    requires sep !in a && sep !in b && sep !in c
    ensures Split(a + [sep] + (b + [sep] + c), sep) == [a, b, c]
  {
    SplitOfConcat(a, b + [sep] + c, sep);
    SplitOfPiece(a, sep);
    TwoPieces(b, c, sep);
  }

  lemma KeyNameIs(d: string)
    ensures "mail." + UNDER + d == "mail._domainkey." + d
    ensures ' ' !in d ==> ' ' !in "mail._domainkey." + d
  {
    assert "mail." + UNDER == "mail._domainkey.";
  }

  lemma SigningReadsBack(d: string)
    requires Readable(d)
    ensures SigningReads(Line(SigningTable, d), d)
  {
    KeyNameIs(d);
    var a := "*@" + d;
    assert Line(SigningTable, d) == a + [' '] + ("mail." + UNDER + d);
    assert ' ' !in a;
    TwoPieces(a, "mail._domainkey." + d, ' ');
  }

  lemma KeyFileChars(d: string)
    requires Readable(d)
    ensures ' ' !in KeyFile(d) && ':' !in KeyFile(d)
  {
    JoinPathIsFree(KEY_DIR, d, ' ');
    JoinPathIsFree(KEY_DIR, d, ':');
    JoinPathIsFree(JoinPath(KEY_DIR, d), "mail.private", ' ');
    JoinPathIsFree(JoinPath(KEY_DIR, d), "mail.private", ':');
  }

  lemma KeyValueReads(d: string, file: string)
    requires ':' !in d && ':' !in file
    ensures Split(d + ":mail:" + file, ':') == [d, "mail", file]
  {
    assert d + ":mail:" + file == d + [':'] + ("mail" + [':'] + file);
    assert ':' !in "mail";
    ThreePieces(d, "mail", file, ':');
  }

  lemma KeyReadsBack(d: string)
    requires Readable(d)
    ensures KeyReads(Line(KeyTable, d), d)
  {
    KeyNameIs(d);
    KeyFileChars(d);
    var v := d + ":mail:" + KeyFile(d);
    assert Line(KeyTable, d) == "mail." + UNDER + d + [' '] + v;
    assert ' ' !in ":mail:" && ' ' !in v;
    TwoPieces("mail._domainkey." + d, v, ' ');
    KeyFileIs(d);
    KeyValueReads(d, KeyFile(d));
  }

  /** The line a domain gets in each table says what the table is for. */
  lemma LineReadsBack(t: Table, d: string)
    requires Readable(d)
    ensures Reads(t, Line(t, d), d)
  {
    match t
    case KeyTable => KeyReadsBack(d);
    case SigningTable => SigningReadsBack(d);
  }

  /** No other line says the same. */
  lemma ReadsIsLine(t: Table, line: string, d: string)
    requires Readable(d)
    ensures Reads(t, line, d) <==> line == Line(t, d)
  {
    LineReadsBack(t, d);
    if Reads(t, line, d) {
      JoinOfSplit(line, ' ');
      JoinOfSplit(Line(t, d), ' ');
      if t == KeyTable {
        JoinOfSplit(Split(line, ' ')[1], ':');
        JoinOfSplit(Split(Line(t, d), ' ')[1], ':');
      }
    }
  }

  // ---------------------------------------------------------------- texts and lists

  function Lines(t: Table, ds: seq<string>): seq<string> {
    if ds == [] then [] else [Line(t, ds[0])] + Lines(t, ds[1..])
  }

  lemma {:induction false} PrintSplits(t: Table, ds: seq<string>)
    requires Names(ds)
    ensures Split(Print(t, ds), '\n') == Lines(t, ds) + [""]
  {
    if ds != [] {
      LineChars(t, ds[0]);
      SplitOfPiece(Line(t, ds[0]), '\n');
      SplitOfConcat(Line(t, ds[0]), Print(t, ds[1..]), '\n');
      PrintSplits(t, ds[1..]);
      assert [Line(t, ds[0])] + (Lines(t, ds[1..]) + [""]) == Lines(t, ds) + [""];
    }
  }

  lemma LinesJoin(t: Table, ds: seq<string>)
    requires Names(ds)
    ensures Join(Lines(t, ds) + [""], '\n') == Print(t, ds)
  {
    PrintSplits(t, ds);
    JoinOfSplit(Print(t, ds), '\n');
  }

  /** The substring test for a whole entry is membership of the domain in the list. */
  lemma {:induction false} EntryInPrint(t: Table, ds: seq<string>, d: string)
    requires Names(ds) && Name(d)
    ensures Contains(Print(t, ds), Line(t, d) + "\n") <==> d in ds
  {
    if ds != [] {
      LineChars(t, ds[0]);
      LineChars(t, d);
      LineOccurs(Line(t, ds[0]), Print(t, ds[1..]), Line(t, d));
      EntryInPrint(t, ds[1..], d);
      SuffixIff(t, d, ds[0]);
    }
  }

  lemma {:induction false} LineListed(t: Table, ds: seq<string>, d: string)
    requires Names(ds) && Name(d)
    ensures Line(t, d) in Lines(t, ds) <==> d in ds
  {
    if ds != [] {
      LineListed(t, ds[1..], d);
      SuffixIff(t, d, ds[0]);
      assert Line(t, ds[0])[0..] == Line(t, ds[0]);
    }
  }

  /** Looking for the entry as a substring is the same as looking for its line. */
  lemma SubstringTestIsLineTest(t: Table, ds: seq<string>, d: string)
    requires Names(ds) && Name(d)
    ensures Contains(Print(t, ds), Line(t, d) + "\n") <==> Line(t, d) in Split(Print(t, ds), '\n')
  {
    EntryInPrint(t, ds, d);
    PrintSplits(t, ds);
    LineListed(t, ds, d);
    assert Line(t, d) != "";
  }

  // ---------------------------------------------------------------- the list operations

  function Including(ds: seq<string>, d: string): seq<string> { if d in ds then ds else ds + [d] }

  /** Removal works by prefix: every listed domain that `d` is a prefix of goes. */
  function WithoutPrefix(ds: seq<string>, d: string): seq<string> {
    if ds == [] then [] else (if d <= ds[0] then [] else [ds[0]]) + WithoutPrefix(ds[1..], d)
  }

  function WithoutEqual(ds: seq<string>, d: string): seq<string> {
    if ds == [] then [] else (if d == ds[0] then [] else [ds[0]]) + WithoutEqual(ds[1..], d)
  }

  lemma {:induction false} PrintOfSnoc(t: Table, ds: seq<string>, d: string)
    ensures Print(t, ds + [d]) == Print(t, ds) + (Line(t, d) + "\n")
  {
    if ds == [] {
      assert Print(t, [d]) == Line(t, d) + "\n" + Print(t, []);
    } else {
      assert (ds + [d])[1..] == ds[1..] + [d];
      PrintOfSnoc(t, ds[1..], d);
      assert Line(t, ds[0]) + "\n" + (Print(t, ds[1..]) + (Line(t, d) + "\n"))
          == Line(t, ds[0]) + "\n" + Print(t, ds[1..]) + (Line(t, d) + "\n");
    }
  }

  lemma AppendRefines(t: Table, ds: seq<string>, d: string)
    requires Names(ds) && Name(d)
    ensures Appended(Print(t, ds), Line(t, d) + "\n") == Print(t, Including(ds, d))
  {
    EntryInPrint(t, ds, d);
    PrintOfSnoc(t, ds, d);
  }

  lemma {:induction false} KeptLines(t: Table, ds: seq<string>, d: string)
    requires Names(ds) && Name(d)
    ensures Kept(Lines(t, ds), Marker(d)) == Lines(t, WithoutPrefix(ds, d))
    ensures Names(WithoutPrefix(ds, d))
  {
    if ds != [] {
      MarkerInLine(t, d, ds[0]);
      KeptLines(t, ds[1..], d);
      var w := WithoutPrefix(ds[1..], d);
      assert Lines(t, ds)[1..] == Lines(t, ds[1..]);
      assert [] + w == w && ([ds[0]] + w)[1..] == w;
      assert [] + Lines(t, w) == Lines(t, w);
    }
  }

  lemma RemovalRefines(t: Table, ds: seq<string>, d: string)
    requires Names(ds) && Name(d)
    ensures Removed(Print(t, ds), Marker(d)) == Print(t, WithoutPrefix(ds, d))
  {
    PrintSplits(t, ds);
    KeptOfConcat(Lines(t, ds), [""], Marker(d));
    EmptyContainsNothing(Marker(d));
    assert Kept([""], Marker(d)) == [""] + Kept([], Marker(d)) == [""];
    KeptLines(t, ds, d);
    LinesJoin(t, WithoutPrefix(ds, d));
  }

  // ---------------------------------------------------------------- runs

  /** How many of the two table updates an operation got to. */
  datatype Reach = Neither | KeyOnly | Both
  datatype Op = Setup(domain: string, reach: Reach) | Remove(domain: string, reach: Reach)

  predicate Touches(op: Op, t: Table) { op.reach == Both || (op.reach == KeyOnly && t == KeyTable) }

  function EditText(t: Table, text: string, op: Op): string {
    if !Touches(op, t) then text
    else match op
      case Setup(d, _) => Appended(text, Line(t, d) + "\n")
      case Remove(d, _) => Removed(text, Marker(d))
  }

  function EditList(t: Table, ds: seq<string>, op: Op): seq<string> {
    if !Touches(op, t) then ds
    else match op
      case Setup(d, _) => Including(ds, d)
      case Remove(d, _) => WithoutPrefix(ds, d)
  }

  function RunText(t: Table, ops: seq<Op>): string {
    if ops == [] then "" else EditText(t, RunText(t, ops[..|ops| - 1]), ops[|ops| - 1])
  }

  function RunList(t: Table, ops: seq<Op>): seq<string> {
    if ops == [] then [] else EditList(t, RunList(t, ops[..|ops| - 1]), ops[|ops| - 1])
  }

  ghost predicate Distinct(ds: seq<string>) { forall i, j :: 0 <= i < j < |ds| ==> ds[i] != ds[j] }

  /** Membership after a removal: exactly the domains that `d` is not a prefix of. */
  lemma {:induction false} WithoutPrefixMembers(ds: seq<string>, d: string, e: string)
    ensures e in WithoutPrefix(ds, d) <==> e in ds && !(d <= e)
  {
    if ds != [] {
      WithoutPrefixMembers(ds[1..], d, e);
      assert ds == [ds[0]] + ds[1..];
    }
  }

  lemma {:induction false} WithoutPrefixDistinct(ds: seq<string>, d: string)
    requires Distinct(ds)
    ensures Distinct(WithoutPrefix(ds, d))
  {
    if ds != [] {
      WithoutPrefixDistinct(ds[1..], d);
      WithoutPrefixMembers(ds[1..], d, ds[0]);
    }
  }

  /** Over every run, failures included, each table is exactly the printed entries of one
      duplicate-free list of domains. */
  lemma {:induction false} TableRefinesList(t: Table, ops: seq<Op>)
    requires forall n :: 0 <= n < |ops| ==> Name(ops[n].domain)
    ensures Names(RunList(t, ops)) && Distinct(RunList(t, ops))
    ensures RunText(t, ops) == Print(t, RunList(t, ops))
  {
    if ops != [] {
      var op, ds := ops[|ops| - 1], RunList(t, ops[..|ops| - 1]);
      TableRefinesList(t, ops[..|ops| - 1]);
      AppendRefines(t, ds, op.domain);
      RemovalRefines(t, ds, op.domain);
      KeptLines(t, ds, op.domain);
      WithoutPrefixDistinct(ds, op.domain);
    }
  }

  /** Operations that bear on a domain: its setup, and the removal of a prefix of it. */
  predicate Affects(op: Op, e: string) { if op.Setup? then op.domain == e else op.domain <= e }

  /** The domain was set up in the table here, and nothing since took it out. */
  ghost predicate SetUpAt(t: Table, ops: seq<Op>, n: nat, e: string) {
    && n < |ops| && Touches(ops[n], t) && ops[n].Setup? && ops[n].domain == e
    && forall m :: n < m < |ops| && Touches(ops[m], t) && Affects(ops[m], e) ==> ops[m].Setup?
  }

  /** The last operation that touched the table and bears on the domain was its setup. */
  ghost predicate LastSetUp(t: Table, ops: seq<Op>, e: string) { exists n: nat :: SetUpAt(t, ops, n, e) }

  lemma SetUpAtSnoc(t: Table, ops: seq<Op>, op: Op, n: nat, e: string)
    requires n < |ops|
    ensures SetUpAt(t, ops + [op], n, e) <==>
            SetUpAt(t, ops, n, e) && (Touches(op, t) && Affects(op, e) ==> op.Setup?)
  {
    var all := ops + [op];
    assert all[|ops|] == op && forall m :: 0 <= m < |ops| ==> all[m] == ops[m];
  }

  lemma LastSetUpOfSnoc(t: Table, ops: seq<Op>, op: Op, e: string)
    ensures LastSetUp(t, ops + [op], e) <==>
            if Touches(op, t) && Affects(op, e) then op.Setup? else LastSetUp(t, ops, e)
  {
    var all := ops + [op];
    forall n: nat | n < |ops|
      ensures SetUpAt(t, all, n, e) <==> SetUpAt(t, ops, n, e) && (Touches(op, t) && Affects(op, e) ==> op.Setup?)
    {
      SetUpAtSnoc(t, ops, op, n, e);
    }
    assert all[|ops|] == op;
    assert SetUpAt(t, all, |ops|, e) <==> Touches(op, t) && Affects(op, e) && op.Setup?;
  }

  /** Over every run, whatever each operation reached: a domain is listed in a table if and
      only if the last operation that touched the table and bears on it was its setup. */
  lemma {:induction false} ListedIff(t: Table, ops: seq<Op>, e: string)
    ensures e in RunList(t, ops) <==> LastSetUp(t, ops, e)
  {
    if ops != [] {
      var init, op := ops[..|ops| - 1], ops[|ops| - 1];
      assert ops == init + [op];
      ListedIff(t, init, e);
      LastSetUpOfSnoc(t, init, op, e);
      WithoutPrefixMembers(RunList(t, init), op.domain, e);
    }
  }

  /** Read back from the text of the table after any run: it has a line that says what the
      table says of a domain if and only if the domain's last operation was its setup. */
  lemma TextReadsIff(t: Table, ops: seq<Op>, d: string)
    requires Readable(d) && forall n :: 0 <= n < |ops| ==> Name(ops[n].domain)
    ensures (exists line :: line in Split(RunText(t, ops), '\n') && Reads(t, line, d)) <==> LastSetUp(t, ops, d)
  {
    var ds := RunList(t, ops);
    TableRefinesList(t, ops);
    PrintSplits(t, ds);
    LineListed(t, ds, d);
    ListedIff(t, ops, d);
    assert Line(t, d) != "";
    assert Line(t, d) in Lines(t, ds) + [""] <==> d in ds;
    forall line ensures Reads(t, line, d) <==> line == Line(t, d) {
      ReadsIsLine(t, line, d);
    }
  }

  /** The two tables agree on a domain if the last operation that bears on it and touched
      either reached both, whatever failed before and elsewhere. */
  lemma {:induction false} TablesAgreeOn(ops: seq<Op>, n: nat, e: string)
    requires n < |ops| && Affects(ops[n], e) && ops[n].reach == Both
    requires forall m :: n < m < |ops| && Affects(ops[m], e) ==> ops[m].reach == Neither
    ensures e in RunList(KeyTable, ops) <==> e in RunList(SigningTable, ops)
    ensures e in RunList(KeyTable, ops) <==> ops[n].Setup?
  {
    ListedIff(KeyTable, ops, e);
    ListedIff(SigningTable, ops, e);
    LastDecides(KeyTable, ops, n, e);
    LastDecides(SigningTable, ops, n, e);
  }

  lemma LastDecides(t: Table, ops: seq<Op>, n: nat, e: string)
    requires n < |ops| && Affects(ops[n], e) && Touches(ops[n], t)
    requires forall m :: n < m < |ops| && Affects(ops[m], e) ==> !Touches(ops[m], t)
    ensures LastSetUp(t, ops, e) <==> ops[n].Setup?
  {
    assert ops[n].Setup? ==> SetUpAt(t, ops, n, e);
  }

  /** Over every failure-free run both tables list the same domains. */
  lemma {:induction false} TablesAgree(ops: seq<Op>)
    requires forall n :: 0 <= n < |ops| ==> ops[n].reach == Both
    ensures RunList(KeyTable, ops) == RunList(SigningTable, ops)
  {
    if ops != [] {
      TablesAgree(ops[..|ops| - 1]);
    }
  }

  /** Removing a domain removes just that domain if and only if it is not a proper prefix of
      another listed domain. */
  lemma {:induction false} RemovalIsExactIff(ds: seq<string>, d: string)
    ensures WithoutPrefix(ds, d) == WithoutEqual(ds, d) <==> forall e :: e in ds && d <= e ==> e == d
  {
    if ds != [] {
      var x, p, q := ds[0], WithoutPrefix(ds[1..], d), WithoutEqual(ds[1..], d);
      RemovalIsExactIff(ds[1..], d);
      WithoutShrinks(ds[1..], d);
      assert forall e :: e in ds <==> e == x || e in ds[1..];
      if d == x {
        assert WithoutPrefix(ds, d) == [] + p == p && WithoutEqual(ds, d) == [] + q == q;
      } else if d <= x {
        assert WithoutPrefix(ds, d) == [] + p == p && |WithoutEqual(ds, d)| == 1 + |q|;
        assert x in ds;
      } else {
        assert ([x] + p)[1..] == p && ([x] + q)[1..] == q;
      }
    }
  }

  lemma {:induction false} WithoutShrinks(ds: seq<string>, d: string)
    ensures |WithoutPrefix(ds, d)| <= |WithoutEqual(ds, d)|
  {
    if ds != [] {
      WithoutShrinks(ds[1..], d);
    }
  }

  /** Removing "a.co" also removes "a.com". */
  lemma RemovalTakesMore(t: Table)
    ensures RunList(t, [Setup("a.co", Both), Setup("a.com", Both), Remove("a.co", Both)]) == []
    ensures WithoutEqual(["a.co", "a.com"], "a.co") == ["a.com"]
  {
    var ops := [Setup("a.co", Both), Setup("a.com", Both), Remove("a.co", Both)];
    assert ops[..2] == [ops[0], ops[1]] && ops[..2][..1] == [ops[0]] && ops[..2][..1][..0] == [];
    assert RunList(t, ops[..2][..1]) == ["a.co"];
    assert RunList(t, ops[..2]) == ["a.co", "a.com"];
    var ds := ["a.co", "a.com"];
    assert ds[1..] == ["a.com"] && ds[1..][1..] == [];
    assert "a.co" <= "a.com";
    assert WithoutPrefix(ds[1..], "a.co") == [];
    assert ds[0] == "a.co" && ds[1..][0] == "a.com" && |"a.co"| == 4 && |"a.com"| == 5;
    assert WithoutEqual(ds[1..], "a.co") == ["a.com"];
  }

  /** Setting a domain up and removing it restores any terminated table, byte for byte,
      exactly when no line of it contains the domain's marker. */
  lemma SetupThenRemove(t: Table, text: string, d: string)
    requires Terminated(text) && Name(d)
    ensures EditText(t, EditText(t, text, Setup(d, Both)), Remove(d, Both)) == text
            <==> NoneContains(Split(text, '\n'), Marker(d))
  {
    LineChars(t, d);
    MarkerInLine(t, d, d);
    AppendThenRemove(text, Line(t, d), Marker(d));
  }

  // ---------------------------------------------------------------- the two commands

  class OpenDkimConfig {
    const keyTable: TableFile
    const signingTable: TableFile

    constructor (keyTable: TableFile, signingTable: TableFile)
      ensures this.keyTable == keyTable && this.signingTable == signingTable
    {
      this.keyTable := keyTable;
      this.signingTable := signingTable;
    }

    /** `pem` is the public key `openssl` produced, if it did; the other parameters say whether
        each table can be read and what writing it comes to. The value to publish is returned
        only if both were updated. */
    method SetupDKIM(
        domain: string, pem: Option<string>, keyReadable: bool, keyWrite: Write, signReadable: bool, signWrite: Write)
      returns (txt: Option<string>, reach: Reach)
      requires keyTable != signingTable
      modifies keyTable, signingTable
      ensures keyTable.Contents() == if pem == None then old(keyTable.Contents())
                else AppendLeaves(old(keyTable.Contents()), Line(KeyTable, domain) + "\n", keyReadable, keyWrite)
      ensures signingTable.Contents() == if reach == Neither then old(signingTable.Contents())
                else AppendLeaves(old(signingTable.Contents()), Line(SigningTable, domain) + "\n",
                                  signReadable, signWrite)
      ensures keyReadable && !keyWrite.Partial? ==>
                keyTable.Contents() == EditText(KeyTable, old(keyTable.Contents()), Setup(domain, reach))
      ensures signReadable && !signWrite.Partial? ==>
                signingTable.Contents() == EditText(SigningTable, old(signingTable.Contents()), Setup(domain, reach))
      ensures txt.Some? <==> reach == Both
      ensures txt.Some? ==> pem.Some? && txt.value == "v=DKIM1; k=rsa; p=" + Pem.Stripped(pem.value)
      ensures pem.Some? && keyWrite == Written && signWrite == Written ==> txt.Some?
      ensures txt.Some? && Readable(domain) ==>
                && (exists line :: KeyReads(line, domain) && Contains(keyTable.Contents(), line + "\n"))
                && (exists line :: SigningReads(line, domain) && Contains(signingTable.Contents(), line + "\n"))
    {
      hide Line, Readable, KeyReads, SigningReads;
      if pem == None {
        return None, Neither;
      }
      var stripped := Pem.StripPemHeaders(pem.value);
      var ok := keyTable.AppendUnique(Line(KeyTable, domain) + "\n", keyReadable, keyWrite);
      if !ok {
        return None, Neither;
      }
      ok := signingTable.AppendUnique(Line(SigningTable, domain) + "\n", signReadable, signWrite);
      if !ok {
        return None, KeyOnly;
      }
      SetUpReads(domain, keyTable.Contents(), signingTable.Contents());
      return Some("v=DKIM1; k=rsa; p=" + stripped), Both;
    }

    /** `keysRemoved` says whether the key directory could be removed. */
    method RemoveDKIM(
        domain: string, keysRemoved: bool, keyReadable: bool, keyWrite: Write, signReadable: bool, signWrite: Write)
      returns (ok: bool, reach: Reach)
      requires keyTable != signingTable
      modifies keyTable, signingTable
      ensures !keyWrite.Partial? ==>
                keyTable.Contents() == EditText(KeyTable, old(keyTable.Contents()), Remove(domain, reach))
      ensures !signWrite.Partial? ==>
                signingTable.Contents() == EditText(SigningTable, old(signingTable.Contents()), Remove(domain, reach))
      ensures keyTable.Contents() == if !keysRemoved then old(keyTable.Contents())
                else RemoveLeaves(old(keyTable.Contents()), "._domainkey." + domain,
                                  keyReadable || old(keyTable.data) == None,
                                  if old(keyTable.data) == None then Written else keyWrite)
      ensures signingTable.Contents() == if reach == Neither then old(signingTable.Contents())
                else RemoveLeaves(old(signingTable.Contents()), "._domainkey." + domain,
                                  signReadable || old(signingTable.data) == None,
                                  if old(signingTable.data) == None then Written else signWrite)
      ensures ok <==> reach == Both
      ensures keysRemoved && keyReadable && signReadable && keyWrite == Written && signWrite == Written ==> ok
    {
      if !keysRemoved {
        return false, Neither;
      }
      EmptyStaysEmpty(Marker(domain));
      MarkerIs(domain);
      ok := keyTable.RemoveLines(Marker(domain), keyReadable, keyWrite);
      if !ok {
        return false, Neither;
      }
      ok := signingTable.RemoveLines(Marker(domain), signReadable, signWrite);
      if !ok {
        return false, KeyOnly;
      }
      return true, Both;
    }
  }

  lemma SetUpReads(domain: string, keys: string, signing: string)
    requires Contains(keys, Line(KeyTable, domain) + "\n") && Contains(signing, Line(SigningTable, domain) + "\n")
    ensures Readable(domain) ==>
              && (exists line :: KeyReads(line, domain) && Contains(keys, line + "\n"))
              && (exists line :: SigningReads(line, domain) && Contains(signing, line + "\n"))
  {
    if Readable(domain) {
      LineReadsBack(KeyTable, domain);
      LineReadsBack(SigningTable, domain);
    }
  }

  lemma MarkerIs(domain: string)
    ensures Marker(domain) == "._domainkey." + domain
  {
    assert "." + UNDER == "._domainkey.";
  }

  lemma EmptyStaysEmpty(marker: string)
    requires marker != ""
    ensures Removed("", marker) == ""
  {
    EmptyContainsNothing(marker);
    assert Kept([""], marker) == [""] + Kept([], marker);
  }
}
