/** CPU usage from the kernel's text: fields are parsed and summed as unsigned 64-bit numbers,
and percentages are computed from the differences of two samples. */
module Cpu {
  import opened Messages
  import opened Numbers
  import opened Text

  const WRAP := 0x1_0000_0000_0000_0000
  type uint64 = n: int | 0 <= n < 0x1_0000_0000_0000_0000

  datatype Sample = Sample(total: uint64, idle: uint64)

  function Minus(a: uint64, b: uint64): uint64 { (a - b) % WRAP }

  function Sum(xs: seq<nat>): nat { if xs == [] then 0 else Sum(xs[..|xs| - 1]) + xs[|xs| - 1] }

  function SampleOf(counters: seq<nat>): Sample
    requires |counters| >= 4
  {
    Sample(Sum(counters) % WRAP, counters[3] % WRAP)
  }

  // ---------------------------------------------------------------- reading the text

  /** The length of the leading run of characters that are not spaces. */
  function WordLength(s: string): (n: nat)
    ensures n <= |s|
    ensures s != "" && !IsSpace(s[0]) ==> n > 0
  {
    if s == "" || IsSpace(s[0]) then 0 else 1 + WordLength(s[1..])
  }

  /** `strings.Fields`: the words between white space. */
  function Fields(s: string): seq<string>
    decreases |s|
  {
    if s == "" then []
    else if IsSpace(s[0]) then Fields(s[1..])
    else [s[..WordLength(s)]] + Fields(s[WordLength(s)..])
  }

  /** `strconv.ParseUint` with its error dropped: zero for a syntax error, the largest value
      for a number out of range. */
  function ParseUint(s: string): uint64 {
    if s == "" || exists k | 0 <= k < |s| :: !IsDigit(s[k]) then 0
    else
      var v := ParseDecimal(s);
      if v < 0 then 0 else if v >= WRAP then WRAP - 1 else v
  }

  function Parsed(fields: seq<string>): seq<nat> { seq(|fields|, n requires 0 <= n < |fields| => ParseUint(fields[n])) }

  /** The sample in the first line that starts with "cpu ", if it has at least four numbers. */
  function SampleText(lines: seq<string>): Option<Sample> {
    if lines == [] then None
    else if !("cpu " <= lines[0]) then SampleText(lines[1..])
    else
      var fields := Fields(lines[0]);
      if |fields| < 5 then None else Some(SampleOf(Parsed(fields[1..])))
  }

  lemma ModAdds(a: nat, b: nat)
    ensures (a % WRAP + b % WRAP) % WRAP == (a + b) % WRAP
  {
  }

  /** Both loops: over the lines, and over the fields in wrapping arithmetic. `stat` is the
      text of /proc/stat, if it could be opened. */
  method SampleCPU(stat: Option<seq<string>>) returns (r: Option<Sample>)
    ensures r == if stat.Some? then SampleText(stat.value) else None
  {
    if stat == None {
      return None;
    }
    var lines := stat.value;
    for i := 0 to |lines|
      invariant SampleText(lines) == SampleText(lines[i..])
    {
      assert lines[i..][1..] == lines[i + 1..];
      if "cpu " <= lines[i] {
        var fields := Fields(lines[i]);
        if |fields| < 5 {
          return None;
        }
        var sample := SumFields(fields[1..]);
        return Some(sample);
      }
    }
    return None;
  }

  lemma SumStep(values: seq<nat>, n: nat)
    requires n < |values| && values[n] < WRAP
    ensures (Sum(values[..n]) % WRAP + values[n]) % WRAP == Sum(values[..n + 1]) % WRAP
  {
    assert values[..n + 1][..n] == values[..n];
    ModAdds(Sum(values[..n]), values[n]);
  }

  method SumFields(fields: seq<string>) returns (r: Sample)
    requires |fields| >= 4
    ensures r == SampleOf(Parsed(fields))
  {
    ghost var values := Parsed(fields);
    var total: uint64, idle: uint64 := 0, 0;
    for n := 0 to |fields|
      invariant total == Sum(values[..n]) % WRAP
      invariant n > 3 ==> idle == values[3]
    {
      SumStep(values, n);
      var v := ParseUint(fields[n]);
      total := (total + v) % WRAP;
      if n == 3 {
        idle := v;
      }
    }
    assert values[..|values|] == values;
    r := Sample(total, idle);
  }

  /** A numeral is read as itself up to the largest value and as that above it; text with
      anything but digits, or with nothing, is read as zero. */
  lemma NumeralsAreRead(n: nat, s: string)
    ensures ParseUint(Decimal(n)) == if n <= 0xFFFF_FFFF_FFFF_FFFF then n else 0xFFFF_FFFF_FFFF_FFFF
    ensures s == "" || (exists k :: 0 <= k < |s| && !('0' <= s[k] <= '9')) ==> ParseUint(s) == 0
  {
    ParseOfDecimal(n);
  }

  lemma {:induction false} SumOfConcat(a: seq<nat>, b: seq<nat>)
    ensures Sum(a + b) == Sum(a) + Sum(b)
  {
    if b == [] {
      assert a + b == a;
    } else {
      assert (a + b)[..|a + b| - 1] == a + b[..|b| - 1];
      SumOfConcat(a, b[..|b| - 1]);
    }
  }

  /** The fields of a text: white space in front is skipped, and what follows it up to the
      next is one field. Every text has one of these three forms. */
  lemma FieldsAreWords(c: char, word: string, rest: string)
    ensures Fields("") == []
    ensures c in " \t\n\r" ==> Fields([c] + rest) == Fields(rest)
    ensures word != "" && (forall k :: 0 <= k < |word| ==> !IsSpace(word[k])) && (rest == "" || IsSpace(rest[0])) ==>
              Fields(word + rest) == [word] + Fields(rest)
  {
    assert ([c] + rest)[1..] == rest;
    if word != "" && (forall k :: 0 <= k < |word| ==> !IsSpace(word[k])) && (rest == "" || IsSpace(rest[0])) {
      FieldsOfWord(word, rest);
    }
  }

  /** The first line that starts with "cpu " alone decides: there is a sample if and only if
      there is such a line and its first five fields exist. */
  lemma {:induction false} SampledIff(lines: seq<string>)
    ensures SampleText(lines).Some? <==>
            exists n :: 0 <= n < |lines| && FirstCounterLine(lines, n) && |Fields(lines[n])| >= 5
    decreases |lines|
  {
    if lines != [] {
      if "cpu " <= lines[0] {
        assert FirstCounterLine(lines, 0);
      } else {
        SampledIff(lines[1..]);
        forall n | 0 <= n < |lines| - 1 ensures FirstCounterLine(lines, n + 1) <==> FirstCounterLine(lines[1..], n) {
          LaterCounterLine(lines, n);
        }
        if n :| 0 <= n < |lines[1..]| && FirstCounterLine(lines[1..], n) && |Fields(lines[1..][n])| >= 5 {
          assert lines[n + 1] == lines[1..][n];
          assert FirstCounterLine(lines, n + 1);
        }
        if n :| 0 <= n < |lines| && FirstCounterLine(lines, n) && |Fields(lines[n])| >= 5 {
          assert n > 0 && lines[n] == lines[1..][n - 1];
          assert FirstCounterLine(lines, n - 1 + 1);
        }
      }
    }
  }

  ghost predicate FirstCounterLine(lines: seq<string>, n: int) {
    0 <= n < |lines| && "cpu " <= lines[n] && forall k :: 0 <= k < n ==> !("cpu " <= lines[k])
  }

  lemma LaterCounterLine(lines: seq<string>, n: nat)
    requires n + 1 < |lines| && !("cpu " <= lines[0])
    ensures FirstCounterLine(lines, n + 1) <==> FirstCounterLine(lines[1..], n)
  {
    if FirstCounterLine(lines[1..], n) {
      forall k | 0 <= k < n + 1 ensures !("cpu " <= lines[k]) {
        assert k > 0 ==> lines[k] == lines[1..][k - 1];
      }
    }
  }

  // ---------------------------------------------------------------- what the kernel prints

  /** Counters are printed modulo 2^64, each after a space. */
  function Printed(counters: seq<nat>): string {
    if counters == [] then "" else " " + (Decimal(counters[0] % WRAP) + Printed(counters[1..]))
  }

  function CpuLine(counters: seq<nat>): string { "cpu " + Printed(counters) }

  function Wrapped(counters: seq<nat>): seq<nat> {
    seq(|counters|, n requires 0 <= n < |counters| => counters[n] % WRAP)
  }

  lemma {:induction false} WordOf(word: string, rest: string)
    requires forall k :: 0 <= k < |word| ==> !IsSpace(word[k])
    requires rest == "" || IsSpace(rest[0])
    ensures WordLength(word + rest) == |word|
  {
    if word == "" {
      assert word + rest == rest;
    } else {
      assert (word + rest)[1..] == word[1..] + rest;
      WordOf(word[1..], rest);
    }
  }

  lemma FieldsOfWord(word: string, rest: string)
    requires word != "" && forall k :: 0 <= k < |word| ==> !IsSpace(word[k])
    requires rest == "" || IsSpace(rest[0])
    ensures Fields(word + rest) == [word] + Fields(rest)
  {
    WordOf(word, rest);
    assert (word + rest)[..|word|] == word && (word + rest)[|word|..] == rest;
  }

  lemma {:induction false} FieldsOfPrinted(counters: seq<nat>)
    ensures |Fields(Printed(counters))| == |counters|
    ensures Parsed(Fields(Printed(counters))) == Wrapped(counters)
    decreases |counters|
  {
    if counters != [] {
      var n, rest := counters[0] % WRAP, Printed(counters[1..]);
      FieldsOfPrintedStep(counters);
      FieldsOfPrinted(counters[1..]);
      assert Parsed([Decimal(n)] + Fields(rest)) == [n] + Parsed(Fields(rest)) by {
        ParseOfDecimal(n);
      }
      assert [n] + Wrapped(counters[1..]) == Wrapped(counters);
    }
  }

  lemma FieldsOfPrintedStep(counters: seq<nat>)
    requires counters != []
    ensures Fields(Printed(counters)) == [Decimal(counters[0] % WRAP)] + Fields(Printed(counters[1..]))
  {
    var n, rest := counters[0] % WRAP, Printed(counters[1..]);
    ParseOfDecimal(n);
    FieldsOfWord(Decimal(n), rest);
    assert Printed(counters)[1..] == Decimal(n) + rest;
  }

  lemma {:induction false} SumOfWrapped(counters: seq<nat>)
    ensures Sum(Wrapped(counters)) % WRAP == Sum(counters) % WRAP
  {
    if counters != [] {
      var m := |counters| - 1;
      SumOfWrapped(counters[..m]);
      assert Wrapped(counters)[..m] == Wrapped(counters[..m]);
      ModFollows(Sum(Wrapped(counters[..m])), Sum(counters[..m]), counters[m]);
    }
  }

  lemma ModFollows(a: nat, b: nat, c: nat)
    requires a % WRAP == b % WRAP
    ensures (a + c % WRAP) % WRAP == (b + c) % WRAP
  {
    ModAdds(a, c % WRAP);
    ModAdds(b, c);
  }

  /** Reading what the kernel prints gives the sample of the real counters, however often they
      have wrapped, whatever other lines there are before and after. */
  lemma {:induction false} KernelTextReadsBack(before: seq<string>, counters: seq<nat>, after: seq<string>)
    requires |counters| >= 4 && forall n :: 0 <= n < |before| ==> !("cpu " <= before[n])
    ensures SampleText(before + [CpuLine(counters)] + after) == Some(SampleOf(counters))
    decreases |before|
  {
    var lines := before + [CpuLine(counters)] + after;
    if before == [] {
      assert lines[0] == CpuLine(counters);
      CpuLineReadsBack(counters);
    } else {
      assert lines[0] == before[0] && lines[1..] == before[1..] + [CpuLine(counters)] + after;
      KernelTextReadsBack(before[1..], counters, after);
    }
  }

  lemma CpuLineReadsBack(counters: seq<nat>)
    requires |counters| >= 4
    ensures "cpu " <= CpuLine(counters)
    ensures |Fields(CpuLine(counters))| == 1 + |counters|
    ensures SampleOf(Parsed(Fields(CpuLine(counters))[1..])) == SampleOf(counters)
  {
    CpuLineFields(counters);
    FieldsOfPrinted(counters);
    assert Fields(CpuLine(counters))[1..] == Fields(Printed(counters));
    SumOfWrapped(counters);
  }

  lemma CpuLineFields(counters: seq<nat>)
    ensures Fields(CpuLine(counters)) == ["cpu"] + Fields(Printed(counters))
  {
    var rest := " " + Printed(counters);
    assert CpuLine(counters) == "cpu" + rest;
    assert forall k :: 0 <= k < 3 ==> !IsSpace("cpu"[k]);
    FieldsOfWord("cpu", rest);
    assert rest[1..] == Printed(counters);
  }

  // ---------------------------------------------------------------- percentages

  function Percent(total: uint64, idle: uint64): real {
    if total == 0 then 0.0 else Minus(total, idle) as real / total as real * 100.0
  }

  function CPUPercent(a: Sample, b: Sample): real {
    Percent(Minus(b.total, a.total), Minus(b.idle, a.idle))
  }

  // ---------------------------------------------------------------- exact deltas

  /** The same fields, none of them lower. */
  ghost predicate Later(a: seq<nat>, b: seq<nat>) {
    |a| == |b| >= 4 && forall n :: 0 <= n < |a| ==> a[n] <= b[n]
  }

  lemma {:induction false} SumGrows(a: seq<nat>, b: seq<nat>, k: nat)
    requires |a| == |b| && k < |a| && forall n :: 0 <= n < |a| ==> a[n] <= b[n]
    ensures 0 <= b[k] - a[k] <= Sum(b) - Sum(a)
  {
    var m := |a| - 1;
    if k < m {
      SumGrows(a[..m], b[..m], k);
    } else if m > 0 {
      SumGrows(a[..m], b[..m], 0);
    }
  }

  lemma MinusOfWrapped(a: nat, b: nat)
    requires a <= b < a + WRAP
    ensures Minus(b % WRAP, a % WRAP) == b - a
  {
  }

  lemma DeltasAreExact(a: seq<nat>, b: seq<nat>)
    requires Later(a, b) && Sum(b) - Sum(a) < WRAP
    ensures Minus(SampleOf(b).total, SampleOf(a).total) == Sum(b) - Sum(a)
    ensures 0 <= Minus(SampleOf(b).idle, SampleOf(a).idle) == b[3] - a[3] <= Sum(b) - Sum(a)
  {
    SumGrows(a, b, 3);
    MinusOfWrapped(Sum(a), Sum(b));
    MinusOfWrapped(a[3], b[3]);
  }

  /** The percentage lies in 0..100 and is the busy share of the total. */
  lemma PercentInRange(total: uint64, idle: uint64)
    requires idle <= total
    ensures 0.0 <= Percent(total, idle) <= 100.0 && (total == 0 ==> Percent(total, idle) == 0.0)
    ensures Percent(total, idle) * total as real == (total - idle) as real * 100.0
  {
    if total > 0 {
      assert Minus(total, idle) == total - idle;
      Fraction((total - idle) as real, total as real);
    }
  }

  /** If the true total grew by less than 2^64 between two samples, the wrapped sums give the
      exact growth, idle within total, and the percentage is that of the true growth. */
  lemma PercentIsExact(a: seq<nat>, b: seq<nat>, total: nat, idle: nat)
    requires Later(a, b) && total == Sum(b) - Sum(a) < WRAP && idle == b[3] - a[3]
    ensures Minus(SampleOf(b).total, SampleOf(a).total) == total
    ensures Minus(SampleOf(b).idle, SampleOf(a).idle) == idle <= total
    ensures CPUPercent(SampleOf(a), SampleOf(b)) == Percent(total, idle)
  {
    DeltasAreExact(a, b);
  }

  lemma Fraction(busy: real, total: real)
    requires 0.0 <= busy <= total && total > 0.0
    ensures 0.0 <= busy / total * 100.0 <= 100.0
    ensures busy / total * 100.0 * total == busy * 100.0
  {
    var q := busy / total;
    assert q * total == busy;
    assert 0.0 <= q;
    assert q <= 1.0;
  }

  // ---------------------------------------------------------------- heartbeats

  lemma GrowsThrough(a: seq<nat>, b: seq<nat>, c: seq<nat>)
    requires Later(a, b) && Later(b, c)
    ensures Later(a, c) && Sum(a) <= Sum(b) <= Sum(c) && a[3] <= b[3] <= c[3]
  {
    SumGrows(a, b, 3);
    SumGrows(b, c, 3);
  }

  /** The metrics of a heartbeat; a group whose reading failed stays zero. */
  datatype Metrics = Metrics(
    cpuPercent: real, memory: (uint64, uint64), disk: (uint64, uint64), load: (real, real, real))

  predicate Sampled(stat: Option<seq<string>>) { stat.Some? && SampleText(stat.value).Some? }

  /** Zero without a sample, and otherwise the busy share of what the counters grew by. */
  ghost predicate UsageIsTrue(stat: Option<seq<string>>, before: seq<nat>, now: seq<nat>, percent: real) {
    if !Sampled(stat) then percent == 0.0
    else |before| >= 4 && |now| >= 4 && (Sum(now) - Sum(before) < WRAP ==>
           && 0 <= now[3] - before[3] <= Sum(now) - Sum(before)
           && percent == Percent(Sum(now) - Sum(before), now[3] - before[3]) && 0.0 <= percent <= 100.0)
  }

  class Agent {
    var lastCPU: Sample

    /** The real counters at the start and at the last successful sample. */
    ghost const first: seq<nat>
    ghost var seen: seq<nat>

    /** The sums of all deltas percentages were computed from. */
    ghost var totals: nat
    ghost var idles: nat

    /** `lastCPU` is the sample of the counters last seen, and the deltas used so far add up
        to the counters' growth for as long as that is below 2^64. */
    ghost predicate Valid()
      reads this
    {
      && Later(first, seen) && lastCPU == SampleOf(seen)
      && (Sum(seen) - Sum(first) < WRAP ==> totals == Sum(seen) - Sum(first) && idles == seen[3] - first[3])
    }

    /** The zero sample an agent starts with is that of counters that are all zero. */
    constructor (ghost fields: nat)
      requires fields >= 4
      ensures Valid() && first == seq(fields, n => 0) && seen == first
    {
      lastCPU := Sample(0, 0);
      first := seq(fields, n => 0);
      seen := seq(fields, n => 0);
      totals, idles := 0, 0;
      new;
      SumOfZeros(fields);
    }

    /** `now` are the real counters behind the text. A failed sample reports zero and keeps
        everything; otherwise the percentage is that of the true growth since the last
        successful sample. */
    method Usage(stat: Option<seq<string>>, ghost now: seq<nat>) returns (percent: real)
      requires Valid() && SampleIsOf(stat, now)
      modifies this
      ensures Valid() && UsageIsTrue(stat, old(seen), now, percent)
      ensures seen == if Sampled(stat) then now else old(seen)
    {
      percent := 0.0;
      var cur := SampleCPU(stat);
      if cur.Some? {
        percent := CPUPercent(lastCPU, cur.value);
        GrowsThrough(first, seen, now);
        if Sum(now) - Sum(seen) < WRAP {
          DeltasAreExact(seen, now);
          PercentInRange(Sum(now) - Sum(seen), now[3] - seen[3]);
        }
        totals := totals + Minus(cur.value.total, lastCPU.total);
        idles := idles + Minus(cur.value.idle, lastCPU.idle);
        seen := now;
        lastCPU := cur.value;
      }
    }

    /** The text, if it could be sampled, is that of these counters, which only grow. */
    ghost predicate SampleIsOf(stat: Option<seq<string>>, now: seq<nat>)
      reads this
    {
      Sampled(stat) ==> Later(seen, now) && SampleText(stat.value).value == SampleOf(now)
    }

    /** The usage since the last successful sample, and the readings of memory and disk (total
        and use) and of the three load averages; what could not be read stays zero. */
    method BuildHeartbeat(
        stat: Option<seq<string>>, ghost now: seq<nat>,
        memory: Option<(uint64, uint64)>, disk: Option<(uint64, uint64)>, load: Option<(real, real, real)>)
      returns (m: Metrics)
      requires Valid() && SampleIsOf(stat, now)
      modifies this
      ensures Valid() && UsageIsTrue(stat, old(seen), now, m.cpuPercent)
      ensures seen == if Sampled(stat) then now else old(seen)
      ensures m.memory == memory.Or((0, 0)) && m.disk == disk.Or((0, 0)) && m.load == load.Or((0.0, 0.0, 0.0))
    {
      var percent := Usage(stat, now);
      m := Metrics(percent, (0, 0), (0, 0), (0.0, 0.0, 0.0));
      if memory.Some? {
        m := m.(memory := memory.value);
      }
      if disk.Some? {
        m := m.(disk := disk.value);
      }
      if load.Some? {
        m := m.(load := load.value);
      }
    }
  }

  lemma {:induction false} SumOfZeros(n: nat)
    ensures Sum(seq(n, k => 0)) == 0
  {
    if n > 0 {
      SumOfZeros(n - 1);
      assert seq(n, k => 0)[..n - 1] == seq(n - 1, k => 0);
    }
  }

  // ---------------------------------------------------------------- runs of heartbeats

  /** The sums of the total and idle deltas a run of heartbeats computes; a missing entry is a
      failed sample. */
  function Deltas(last: Sample, beats: seq<Option<seq<nat>>>): (nat, nat)
    requires forall n :: 0 <= n < |beats| && beats[n].Some? ==> |beats[n].value| >= 4
    decreases |beats|
  {
    if beats == [] then (0, 0)
    else if beats[0] == None then Deltas(last, beats[1..])
    else
      var s := SampleOf(beats[0].value);
      var (total, idle) := Deltas(s, beats[1..]);
      (Minus(s.total, last.total) + total, Minus(s.idle, last.idle) + idle)
  }

  /** The counters at the end of a run that started at `first`. */
  function Final(first: seq<nat>, beats: seq<Option<seq<nat>>>): seq<nat>
    decreases |beats|
  {
    if beats == [] then first
    else Final(if beats[0].Some? then beats[0].value else first, beats[1..])
  }

  ghost predicate Monotone(first: seq<nat>, beats: seq<Option<seq<nat>>>)
    decreases |beats|
  {
    |first| >= 4 &&
    (beats == [] || (if beats[0].Some? then Later(first, beats[0].value) && Monotone(beats[0].value, beats[1..])
                     else Monotone(first, beats[1..])))
  }

  lemma {:induction false} MonotoneFinal(first: seq<nat>, beats: seq<Option<seq<nat>>>)
    requires Monotone(first, beats)
    ensures Later(first, Final(first, beats))
    ensures forall n :: 0 <= n < |beats| && beats[n].Some? ==> |beats[n].value| >= 4
    decreases |beats|
  {
    if beats != [] {
      MonotoneFinal(if beats[0].Some? then beats[0].value else first, beats[1..]);
      assert forall n :: 0 < n < |beats| ==> beats[n] == beats[1..][n - 1];
      if beats[0].Some? {
        GrowsThrough(first, beats[0].value, Final(first, beats));
      }
    }
  }

  /** The deltas of any run of heartbeats, failed samples included, add up to exactly what the
      counters grew by, in total and idle, as long as that is below 2^64. */
  lemma {:induction false} DeltasTelescope(first: seq<nat>, beats: seq<Option<seq<nat>>>)
    requires Monotone(first, beats) && Sum(Final(first, beats)) - Sum(first) < WRAP
    requires forall n :: 0 <= n < |beats| && beats[n].Some? ==> |beats[n].value| >= 4
    ensures |Final(first, beats)| >= 4
    ensures Sum(first) + Deltas(SampleOf(first), beats).0 == Sum(Final(first, beats))
    ensures first[3] + Deltas(SampleOf(first), beats).1 == Final(first, beats)[3]
    decreases |beats|
  {
    if beats != [] {
      if beats[0].Some? {
        MonotoneFinal(beats[0].value, beats[1..]);
        GrowsThrough(first, beats[0].value, Final(first, beats));
        DeltasAreExact(first, beats[0].value);
        DeltasTelescope(beats[0].value, beats[1..]);
      } else {
        DeltasTelescope(first, beats[1..]);
      }
    }
  }
}
