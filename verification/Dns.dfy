/** DNS record updates. Names are completed to absolute names (section 5.1 of RFC 1035), a
positive priority is written in front of the content (section 3.3.9 of RFC 1035, RFC 2782),
and a zone is a map from name and type to its record set. */
module Dns {
  import opened Numbers

  type uint32 = n: int | 0 <= n < 0x1_0000_0000

  datatype ZoneRecord = ZoneRecord(name: string, kind: string, content: string, ttl: uint32, priority: uint32)

  type Key = (string, string)
  datatype Entry = Entry(ttl: uint32, content: string)
  type Zone = map<Key, Entry>

  datatype RRset = Replace(key: Key, entry: Entry) | Delete(key: Key)

  // ---------------------------------------------------------------- names

  predicate Absolute(name: string) { name != "" && name[|name| - 1] == '.' }

  function Fqdn(name: string): (r: string)
    ensures Absolute(r)
    ensures Absolute(name) ==> r == name
  {
    if Absolute(name) then name else name + "."
  }

  function ExpandName(name: string, zone: string): string {
    if name == "@" || name == "" then zone
    else if Absolute(name) then name
    else name + "." + zone
  }

  function UpperChar(c: char): char { if 'a' <= c <= 'z' then ((c as int) - 32) as char else c }

  function ToUpper(s: string): string { seq(|s|, n requires 0 <= n < |s| => UpperChar(s[n])) }

  function KeyOf(zone: string, name: string, kind: string): Key {
    (Fqdn(ExpandName(name, zone)), ToUpper(kind))
  }

  /** What a name and a type become, spelled out: "@" and the empty name are the zone, a name
      with a final dot stays, any other is put below the zone, each with one final dot; the
      type is the same with its ASCII letters in upper case. */
  lemma KeysSpelled(zone: string, name: string, kind: string)
    ensures
      var z := if zone != "" && zone[|zone| - 1] == '.' then zone else zone + ".";
      KeyOf(Fqdn(zone), name, kind).0 ==
      if name == "@" || name == "" then z
      else if name[|name| - 1] == '.' then name
      else name + "." + z
    ensures
      var k := KeyOf(Fqdn(zone), name, kind).1;
      |k| == |kind| && forall n :: 0 <= n < |kind| ==>
        if 'a' <= kind[n] <= 'z' then k[n] as int == kind[n] as int - 32 else k[n] == kind[n]
  {
    assert !Absolute(name) && name != "@" && name != "" ==> Absolute(name + "." + Fqdn(zone));
  }

  /** The same letter up to ASCII case. */
  predicate SameLetter(a: char, b: char) {
    || a == b
    || ('a' <= a <= 'z' && b as int == a as int - 32)
    || ('a' <= b <= 'z' && a as int == b as int - 32)
  }

  predicate SameType(a: string, b: string) {
    |a| == |b| && forall n :: 0 <= n < |a| ==> SameLetter(a[n], b[n])
  }

  /** Records of one name share a key if and only if their types are the same up to ASCII case. */
  lemma KeysShareIff(zone: string, name: string, a: string, b: string)
    ensures KeyOf(zone, name, a) == KeyOf(zone, name, b) <==> SameType(a, b)
  {
    assert forall n :: 0 <= n < |a| ==> ToUpper(a)[n] == UpperChar(a[n]);
    assert forall n :: 0 <= n < |b| ==> ToUpper(b)[n] == UpperChar(b[n]);
    if SameType(a, b) {
      assert ToUpper(a) == ToUpper(b);
    }
  }

  /** Types in upper case share a key only if they are equal, and lower case is no difference. */
  lemma TypesSpelled(zone: string, name: string, a: string, b: string)
    requires forall n :: 0 <= n < |a| ==> !('a' <= a[n] <= 'z')
    requires forall n :: 0 <= n < |b| ==> !('a' <= b[n] <= 'z')
    ensures KeyOf(zone, name, a) == KeyOf(zone, name, b) <==> a == b
    ensures KeyOf(zone, name, "mx") == KeyOf(zone, name, "MX") != KeyOf(zone, name, "A")
  {
    KeysShareIff(zone, name, a, b);
    assert SameType(a, b) <==> a == b;
    KeysShareIff(zone, name, "mx", "MX");
    KeysShareIff(zone, name, "MX", "A");
  }

  predicate Relative(name: string) { name != "@" && name != "" && !Absolute(name) }

  /** Every name sent to the server is absolute. */
  lemma KeysAreAbsolute(zone: string, name: string, kind: string)
    ensures Absolute(KeyOf(Fqdn(zone), name, kind).0)
  {
  }

  /** Relative names get distinct keys, and none of them the zone's own. */
  lemma RelativeNamesAreDistinct(zone: string, a: string, b: string, kind: string)
    requires Relative(a)
    ensures Relative(b) ==> (KeyOf(Fqdn(zone), a, kind) == KeyOf(Fqdn(zone), b, kind) <==> a == b)
    ensures KeyOf(Fqdn(zone), a, kind) != KeyOf(Fqdn(zone), "@", kind)
  {
    var z := Fqdn(zone);
    assert KeyOf(z, a, kind).0 == a + "." + z;
    if Relative(b) && a + "." + z == b + "." + z {
      assert a == (a + "." + z)[..|a|] && b == (b + "." + z)[..|b|];
    }
  }

  // ---------------------------------------------------------------- content

  function Content(priority: uint32, content: string): string {
    if priority > 0 then Decimal(priority) + " " + content else content
  }

  /** Reads a priority back: the leading digits, and what follows the space after them. */
  function DecodeContent(s: string): (int, string) {
    var n := Digits(s);
    if n == |s| then (0, s) else (ParseDecimal(s[..n]), s[n + 1..])
  }

  /** With a positive priority the content decodes to exactly the priority and the text, so
      distinct pairs are never written the same way. */
  lemma ContentDecodes(priority: uint32, content: string)
    requires priority > 0
    ensures DecodeContent(Content(priority, content)) == (priority, content)
  {
    var s := Content(priority, content);
    var d := Decimal(priority);
    ParseOfDecimal(priority);
    assert s == d + (" " + content);
    DigitsOf(d, " " + content);
    assert s[..|d|] == d && s[|d| + 1..] == content;
  }

  // ---------------------------------------------------------------- content without a priority

  /** The text starts with a positive 32-bit number and a space. */
  predicate LooksPrioritised(c: string) {
    var n := Digits(c);
    0 < n < |c| && c[0] != '0' && c[n] == ' ' && ParseDecimal(c[..n]) < 0x1_0000_0000
  }

  lemma PrioritisedLooksSo(p: uint32, d: string)
    requires p > 0
    ensures LooksPrioritised(Content(p, d))
  {
    ParseOfDecimal(p);
    NoLeadingZero(p);
    assert Content(p, d) == Decimal(p) + (" " + d);
    DigitsOf(Decimal(p), " " + d);
    assert Content(p, d)[..|Decimal(p)|] == Decimal(p);
  }

  lemma LooksReadsBack(c: string) returns (p: uint32, d: string)
    requires LooksPrioritised(c)
    ensures p > 0 && Content(p, d) == c
  {
    var n := Digits(c);
    LeadingDigits(c);
    assert forall k :: 0 <= k < n ==> c[..n][k] == c[k];
    DecimalOfParse(c[..n]);
    assert c == c[..n] + " " + c[n + 1..];
    p, d := ParseDecimal(c[..n]), c[n + 1..];
  }

  /** A text written without a priority is also the content of some record with one if and
      only if it starts with a positive 32-bit number and a space. */
  lemma ZeroPriorityIsAmbiguousIff(c: string)
    ensures (exists p: uint32, d: string :: p > 0 && Content(p, d) == Content(0, c)) <==> LooksPrioritised(c)
  {
    if p: uint32, d: string :| p > 0 && Content(p, d) == Content(0, c) {
      PrioritisedLooksSo(p, d);
    }
    if LooksPrioritised(c) {
      var p, d := LooksReadsBack(c);
      assert p > 0 && Content(p, d) == Content(0, c);
    }
  }

  /** Away from such texts the content determines the priority and the text. */
  lemma ContentIsInjective(p: uint32, c: string, q: uint32, d: string)
    requires p == 0 ==> !LooksPrioritised(c)
    requires q == 0 ==> !LooksPrioritised(d)
    ensures Content(p, c) == Content(q, d) <==> p == q && c == d
  {
    if p > 0 {
      ContentDecodes(p, c);
    }
    if q > 0 {
      ContentDecodes(q, d);
    }
    ZeroPriorityIsAmbiguousIff(c);
    ZeroPriorityIsAmbiguousIff(d);
  }

  /** Such a text: priority zero is not written, and the rest reads like priority 10. */
  lemma ZeroPriorityIsAmbiguous()
    ensures LooksPrioritised("10 mail") && Content(0, "10 mail") == Content(10, "mail")
  {
    assert Decimal(1) == ['1'];
    assert Decimal(10) == Decimal(1) + [Digit(0)];
    DigitsOf("10", " mail");
    assert "10" + " mail" == "10 mail";
    ParseOfDecimal(10);
    assert "10 mail"[..2] == Decimal(10);
  }

  // ---------------------------------------------------------------- updates

  function EntryOf(r: ZoneRecord): Entry {
    Entry(if r.ttl == 0 then 300 else r.ttl, Content(r.priority, r.content))
  }

  function SetOf(zone: string, r: ZoneRecord): RRset { Replace(KeyOf(zone, r.name, r.kind), EntryOf(r)) }

  function Sets(zone: string, rs: seq<ZoneRecord>): seq<RRset> {
    seq(|rs|, n requires 0 <= n < |rs| => SetOf(zone, rs[n]))
  }

  function ApplySet(m: Zone, s: RRset): Zone {
    match s
    case Replace(key, entry) => m[key := entry]
    case Delete(key) => m - {key}
  }

  /** The server applies the sets of a patch in order. */
  function Patch(m: Zone, sets: seq<RRset>): Zone {
    if sets == [] then m else ApplySet(Patch(m, sets[..|sets| - 1]), sets[|sets| - 1])
  }

  lemma PatchOfOne(m: Zone, s: RRset)
    ensures Patch(m, [s]) == ApplySet(m, s)
  {
    assert [s][..0] == [];
    assert Patch(m, [s][..0]) == m;
  }

  lemma {:induction false} PatchOfConcat(m: Zone, a: seq<RRset>, b: seq<RRset>)
    ensures Patch(m, a + b) == Patch(Patch(m, a), b)
  {
    if b == [] {
      assert a + b == a;
    } else {
      assert (a + b)[..|a + b| - 1] == a + b[..|b| - 1];
      PatchOfConcat(m, a, b[..|b| - 1]);
    }
  }

  function Singles(m: Zone, zone: string, rs: seq<ZoneRecord>): Zone
    decreases |rs|
  {
    if rs == [] then m else Singles(Patch(m, Sets(zone, [rs[0]])), zone, rs[1..])
  }

  /** One batched upsert is the same as the single upserts one after another. */
  lemma {:induction false} BatchIsSingles(m: Zone, zone: string, rs: seq<ZoneRecord>)
    ensures Patch(m, Sets(zone, rs)) == Singles(m, zone, rs)
    decreases |rs|
  {
    if rs != [] {
      assert Sets(zone, rs) == Sets(zone, [rs[0]]) + Sets(zone, rs[1..]);
      PatchOfConcat(m, Sets(zone, [rs[0]]), Sets(zone, rs[1..]));
      BatchIsSingles(Patch(m, Sets(zone, [rs[0]])), zone, rs[1..]);
    }
  }

  lemma PatchOfLast(m: Zone, zone: string, rs: seq<ZoneRecord>)
    requires rs != []
    ensures Patch(m, Sets(zone, rs)) == ApplySet(Patch(m, Sets(zone, rs[..|rs| - 1])), SetOf(zone, rs[|rs| - 1]))
  {
    assert Sets(zone, rs)[..|rs| - 1] == Sets(zone, rs[..|rs| - 1]);
  }

  /** The last record written under a key is the one that stays. */
  lemma {:induction false} LastWriteWins(m: Zone, zone: string, rs: seq<ZoneRecord>, n: nat)
    requires n < |rs|
    requires forall k :: n < k < |rs| ==> KeyOf(zone, rs[k].name, rs[k].kind) != KeyOf(zone, rs[n].name, rs[n].kind)
    ensures
      var key := KeyOf(zone, rs[n].name, rs[n].kind);
      key in Patch(m, Sets(zone, rs)) && Patch(m, Sets(zone, rs))[key] == EntryOf(rs[n])
    decreases |rs|
  {
    PatchOfLast(m, zone, rs);
    if n < |rs| - 1 {
      var init := rs[..|rs| - 1];
      assert forall k :: 0 <= k < |init| ==> init[k] == rs[k];
      LastWriteWins(m, zone, init, n);
    }
  }

  /** A key no record names is left as it was. */
  lemma {:induction false} OtherKeysStay(m: Zone, zone: string, rs: seq<ZoneRecord>, key: Key)
    requires forall k :: 0 <= k < |rs| ==> KeyOf(zone, rs[k].name, rs[k].kind) != key
    ensures key in Patch(m, Sets(zone, rs)) <==> key in m
    ensures key in m ==> Patch(m, Sets(zone, rs))[key] == m[key]
    decreases |rs|
  {
    if rs != [] {
      PatchOfLast(m, zone, rs);
      var init := rs[..|rs| - 1];
      assert forall k :: 0 <= k < |init| ==> init[k] == rs[k];
      OtherKeysStay(m, zone, init, key);
    }
  }

  // ---------------------------------------------------------------- the client

  /** The client and the zones its server holds. */
  class Client {
    var zones: map<string, Zone>

    constructor ()
      ensures zones == map[]
    {
      zones := map[];
    }

    /** Fills the list of sets in order and patches the zone, which has to exist. */
    method UpsertRecords(zone: string, records: seq<ZoneRecord>) returns (ok: bool)
      modifies this
      ensures ok <==> zone in old(zones)
      ensures zones == if ok then old(zones)[zone := Patch(old(zones)[zone], Sets(zone, records))] else old(zones)
    {
      var sets: seq<RRset> := [];
      for n := 0 to |records|
        invariant sets == Sets(zone, records[..n]) && zones == old(zones)
      {
        var r := records[n];
        var content := r.content;
        if r.priority > 0 {
          content := Decimal(r.priority) + " " + r.content;
        }
        var ttl := r.ttl;
        if ttl == 0 {
          ttl := 300;
        }
        sets := sets + [Replace((Fqdn(ExpandName(r.name, zone)), ToUpper(r.kind)), Entry(ttl, content))];
        assert records[..n + 1] == records[..n] + [r];
      }
      assert records[..|records|] == records;
      ok := zone in zones;
      if ok {
        zones := zones[zone := Patch(zones[zone], sets)];
      }
    }

    /** The server refuses a zone that exists. */
    method CreateZone(name: string, records: seq<ZoneRecord>) returns (ok: bool)
      modifies this
      ensures ok <==> Fqdn(name) !in old(zones)
      ensures zones == if ok then old(zones)[Fqdn(name) := Patch(map[], Sets(Fqdn(name), records))] else old(zones)
    {
      var zone := Fqdn(name);
      if zone in zones {
        return false;
      }
      zones := zones[zone := map[]];
      if |records| > 0 {
        ok := UpsertRecords(zone, records);
      } else {
        ok := true;
      }
    }

    method UpsertRecord(name: string, r: ZoneRecord) returns (ok: bool)
      modifies this
      ensures ok <==> Fqdn(name) in old(zones)
      ensures zones == if ok then
                old(zones)[Fqdn(name) := old(zones)[Fqdn(name)][KeyOf(Fqdn(name), r.name, r.kind) := EntryOf(r)]]
              else old(zones)
      ensures ok ==>
                var e := zones[Fqdn(name)][KeyOf(Fqdn(name), r.name, r.kind)];
                && e.ttl == (if r.ttl == 0 then 300 else r.ttl)
                && (r.priority == 0 ==> e.content == r.content)
                && (r.priority > 0 ==>
                      DecodeContent(e.content) == (r.priority, r.content) && LooksPrioritised(e.content))
    {
      var zone := Fqdn(name);
      if zone in zones {
        assert Sets(zone, [r]) == [SetOf(zone, r)];
        PatchOfOne(zones[zone], SetOf(zone, r));
      }
      if r.priority > 0 {
        ContentDecodes(r.priority, r.content);
        PrioritisedLooksSo(r.priority, r.content);
      }
      ok := UpsertRecords(zone, [r]);
    }

    method DeleteRecord(name: string, record: string, kind: string) returns (ok: bool)
      modifies this
      ensures ok <==> Fqdn(name) in old(zones)
      ensures zones == if ok then
                old(zones)[Fqdn(name) := old(zones)[Fqdn(name)] - {KeyOf(Fqdn(name), record, kind)}]
              else old(zones)
    {
      var zone := Fqdn(name);
      ok := zone in zones;
      if ok {
        var removal := Delete((Fqdn(ExpandName(record, zone)), ToUpper(kind)));
        PatchOfOne(zones[zone], removal);
        zones := zones[zone := Patch(zones[zone], [removal])];
      }
    }
  }

  /** Records of different types under one name do not replace each other. */
  method DifferentTypesStay(c: Client, zone: string, a: ZoneRecord, b: ZoneRecord) returns (ok: bool)
    requires Fqdn(zone) in c.zones && a.name == b.name && !SameType(a.kind, b.kind)
    modifies c
    ensures ok && Fqdn(zone) in c.zones
    ensures KeyOf(Fqdn(zone), a.name, a.kind) in c.zones[Fqdn(zone)]
    ensures KeyOf(Fqdn(zone), b.name, b.kind) in c.zones[Fqdn(zone)]
    ensures c.zones[Fqdn(zone)][KeyOf(Fqdn(zone), a.name, a.kind)] == EntryOf(a)
    ensures c.zones[Fqdn(zone)][KeyOf(Fqdn(zone), b.name, b.kind)] == EntryOf(b)
  {
    KeysShareIff(Fqdn(zone), a.name, a.kind, b.kind);
    ok := c.UpsertRecord(zone, a);
    ok := c.UpsertRecord(zone, b);
  }

  /** An upsert followed by a delete of the same name removes exactly the key the upsert
      wrote, however the type is capitalised and with or without the zone's trailing dot. */
  method DeleteUndoesUpsert(c: Client, zone: string, zone': string, r: ZoneRecord, kind: string) returns (ok: bool)
    requires Fqdn(zone) == Fqdn(zone') && SameType(kind, r.kind)
    requires Fqdn(zone) in c.zones
    modifies c
    ensures ok
    ensures c.zones == old(c.zones)[Fqdn(zone) := old(c.zones)[Fqdn(zone)] - {KeyOf(Fqdn(zone), r.name, r.kind)}]
  {
    KeysShareIff(Fqdn(zone), r.name, kind, r.kind);
    ghost var m, key := c.zones[Fqdn(zone)], KeyOf(Fqdn(zone), r.name, r.kind);
    ok := c.UpsertRecord(zone, r);
    ok := c.DeleteRecord(zone', r.name, kind);
    assert m[key := EntryOf(r)] - {key} == m - {key};
  }
}
