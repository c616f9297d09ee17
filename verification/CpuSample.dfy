/**
  The agent's CPU figure: two snapshots of the `cpu` line of /proc/stat, each
  summed in a 64-bit register that may wrap around, and the share of non-idle
  time between them.
 */
module CpuSample {
  import opened Wrappers
  import opened Numerals
  import opened Sums

  const WIDTH := 0x1_0000_0000_0000_0000

  newtype Word = x: int | 0 <= x < 0x1_0000_0000_0000_0000

  function Wrap(n: int): Word {
    (n % WIDTH) as Word
  }

  function Plus(a: Word, b: Word): Word {
    Wrap(a as int + b as int)
  }

  function Minus(a: Word, b: Word): Word {
    Wrap(a as int - b as int)
  }

  datatype Sample = Sample(idle: Word, total: Word)

  // ---------- Reading a sample ----------

  /** `strconv.ParseUint(field, 10, 64)`. */
  function ParseUint(field: string): Option<Word> {
    if field != "" && All(field, IsDigit) && Number(field) < WIDTH then Some(Number(field) as Word) else None
  }

  /** A numeral is read as its number when it fits a register; nothing but digits is read. */
  lemma ParseUintExactly(field: string)
    ensures
      ParseUint(field).Some? <==>
      field != "" && (forall i :: 0 <= i < |field| ==> '0' <= field[i] <= '9') &&
      Number(field) < 0x1_0000_0000_0000_0000
    ensures ParseUint(field).Some? ==> ParseUint(field).value as int == Number(field)
  {
  }

  lemma ParsesNumerals(n: nat)
    requires n < 0x1_0000_0000_0000_0000
    ensures ParseUint(Decimal(n)) == Some(n as Word)
  {
    DecimalReads(n);
  }

  predicate Numeric(texts: seq<string>) {
    forall i :: 0 <= i < |texts| ==> ParseUint(texts[i]).Some?
  }

  function Counters(texts: seq<string>): (vs: seq<Word>)
    requires Numeric(texts)
    ensures |vs| == |texts| && forall i :: 0 <= i < |vs| ==> vs[i] == ParseUint(texts[i]).value
  {
    seq(|texts|, i requires 0 <= i < |texts| => ParseUint(texts[i]).value)
  }

  /** The true total, with no wrap-around. */
  function Total(vs: seq<Word>): nat {
    if vs == [] then 0 else Total(vs[..|vs| - 1]) + vs[|vs| - 1] as nat
  }

  function SampleOf(vs: seq<Word>): Sample
    requires |vs| >= 4
  {
    Sample(vs[3], Wrap(Total(vs)))
  }

  /** `readCPUSample`, from the fields of the first line. */
  method ReadSample(fields: seq<string>) returns (r: Option<Sample>)
    ensures r.Some? <==>
      |fields| >= 5 && fields[0] == "cpu" && forall i :: 0 <= i < |fields[1..]| ==> ParseUint(fields[1..][i]).Some?
    ensures r.Some? ==>
      Numeric(fields[1..]) && r.value.idle == ParseUint(fields[4]).value &&
      r.value.total as int == Total(Counters(fields[1..])) % 0x1_0000_0000_0000_0000 &&
      r.value == SampleOf(Counters(fields[1..]))
  {
    if |fields| < 5 || fields[0] != "cpu" {
      return None;
    }
    var texts := fields[1..];
    var total: Word, idle: Word := 0, 0;
    for i := 0 to |texts|
      invariant Numeric(texts[..i])
      invariant total == Wrap(Total(Counters(texts[..i])))
      invariant i > 3 ==> idle == Counters(texts[..i])[3]
    {
      var v := ParseUint(texts[i]);
      if v.None? {
        return None;
      }
      CountersOneMore(texts, i);
      PlusWraps(Counters(texts[..i]), v.value);
      total := Plus(total, v.value);
      if i == 3 {
        idle := v.value;
      }
    }
    assert texts[..|texts|] == texts;
    r := Some(Sample(idle, total));
  }

  lemma CountersOneMore(texts: seq<string>, i: nat)
    requires i < |texts| && Numeric(texts[..i]) && ParseUint(texts[i]).Some?
    ensures Numeric(texts[..i + 1]) && Counters(texts[..i + 1]) == Counters(texts[..i]) + [ParseUint(texts[i]).value]
  {
  }

  lemma PlusWraps(vs: seq<Word>, v: Word)
    ensures Plus(Wrap(Total(vs)), v) == Wrap(Total(vs + [v]))
  {
    assert (vs + [v])[..|vs|] == vs;
  }

  // ---------- The percentage ----------

  function CpuPercent(first: Sample, second: Sample): real {
    var totalDelta, idleDelta := Minus(second.total, first.total), Minus(second.idle, first.idle);
    if totalDelta == 0 then 0.0
    else NotIdle(idleDelta as int as real, totalDelta as int as real)
  }

  function NotIdle(idle: real, total: real): real
    requires total > 0.0
  {
    100.0 * (1.0 - idle / total)
  }

  /** The register difference is the true growth exactly when the growth fits the register. */
  lemma {:induction false} GrowthExactIff(us: seq<Word>, vs: seq<Word>)
    ensures
      Minus(Wrap(Total(vs)), Wrap(Total(us))) as int == Total(vs) - Total(us) <==>
      0 <= Total(vs) - Total(us) < WIDTH
  {
  }

  ghost predicate NoneDecreases(us: seq<Word>, vs: seq<Word>) {
    |us| == |vs| && forall i :: 0 <= i < |us| ==> us[i] <= vs[i]
  }

  /** No counter grows by more than all of them together. */
  lemma {:induction false} GrowthBounds(us: seq<Word>, vs: seq<Word>, k: nat)
    requires NoneDecreases(us, vs) && k < |us|
    ensures 0 <= vs[k] as int - us[k] as int <= Total(vs) - Total(us)
  {
    var n := |us| - 1;
    if k < n {
      GrowthBounds(us[..n], vs[..n], k);
    } else {
      TotalGrows(us[..n], vs[..n]);
    }
  }

  lemma {:induction false} TotalGrows(us: seq<Word>, vs: seq<Word>)
    requires NoneDecreases(us, vs)
    ensures Total(us) <= Total(vs)
  {
    if us != [] {
      TotalGrows(us[..|us| - 1], vs[..|us| - 1]);
    }
  }

  ghost predicate IsBusyShare(p: real, idle: real, total: real)
    requires total > 0.0
  {
    0.0 <= p <= 100.0 && p == 100.0 * ((total - idle) / total) &&
    (p == 0.0 <==> idle == total) && (p == 100.0 <==> idle == 0.0)
  }

  lemma NotIdleIsBusy(idle: real, total: real)
    requires 0.0 <= idle <= total && total > 0.0
    ensures IsBusyShare(NotIdle(idle, total), idle, total)
  {
  }

  /** The two register differences are the true growths. */
  lemma Deltas(us: seq<Word>, vs: seq<Word>)
    requires |us| >= 4 && NoneDecreases(us, vs) && Total(vs) - Total(us) < WIDTH
    ensures Minus(SampleOf(vs).total, SampleOf(us).total) as int == Total(vs) - Total(us)
    ensures Minus(SampleOf(vs).idle, SampleOf(us).idle) as int == vs[3] as int - us[3] as int
    ensures 0 <= vs[3] as int - us[3] as int <= Total(vs) - Total(us)
  {
    GrowthBounds(us, vs, 3);
    GrowthExactIff(us, vs);
  }

  /**
    For two samples of the same counters, none of them decreasing and growing
    by less than 2^64 in all, the percentage is the true share of busy time,
    between 0 and 100, even when the running sums themselves have wrapped.
   */
  lemma {:induction false} PercentIsBusyShare(us: seq<Word>, vs: seq<Word>)
    requires |us| >= 4 && NoneDecreases(us, vs) && Total(vs) - Total(us) < WIDTH
    ensures
      var growth, idle := Total(vs) - Total(us), vs[3] as int - us[3] as int;
      var p := CpuPercent(SampleOf(us), SampleOf(vs));
      if growth <= 0 then growth == 0 && p == 0.0 else IsBusyShare(p, idle as real, growth as real)
  {
    Deltas(us, vs);
    var growth, idle := Total(vs) - Total(us), vs[3] as int - us[3] as int;
    if growth != 0 {
      NotIdleIsBusy(idle as real, growth as real);
    }
  }
}
