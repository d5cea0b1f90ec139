/**
 Capture file names and their exclusive creation (src/recording/wav_header.rs:65-77,
 src/recording/disk.rs:218-249).
 */
module Naming {
  import opened Wrappers
  import opened Buffer
  import opened Io

  function Digit(d: nat): char
    requires d < 10
  {
    ['0', '1', '2', '3', '4', '5', '6', '7', '8', '9'][d]
  }

  function Decimal(n: nat): (s: string)
    ensures |s| > 0
  {
    if n < 10 then [Digit(n)] else Decimal(n / 10) + [Digit(n % 10)]
  }

  // What distinguishes the names of one timestamp.
  function Tail(part: nat, suffix: nat): string {
    var numbered := if part <= 1 then "" else "_part" + Decimal(part);
    if suffix == 0 then numbered else numbered + "-" + Decimal(suffix)
  }

  function CaptureFilename(timestamp: string, part: nat, suffix: nat): string {
    if part <= 1 then
      if suffix == 0 then "capture_" + timestamp + ".wav"
      else "capture_" + timestamp + "-" + Decimal(suffix) + ".wav"
    else if suffix == 0 then "capture_" + timestamp + "_part" + Decimal(part) + ".wav"
    else "capture_" + timestamp + "_part" + Decimal(part) + "-" + Decimal(suffix) + ".wav"
  }

  // Reads a numeral, most significant digit first.
  function ReadDecimal(s: string): int {
    if s == [] then 0 else 10 * ReadDecimal(s[..|s| - 1]) + (s[|s| - 1] as int - '0' as int)
  }

  lemma DigitReads(d: nat)
    requires d < 10
    ensures Digit(d) as int - '0' as int == d
  {
  }

  // A number is written in the digits that read back as it, with no leading zero.
  lemma {:induction false} DecimalReads(n: nat)
    ensures ReadDecimal(Decimal(n)) == n && (n > 0 ==> Decimal(n)[0] != '0')
  {
    hide Digit;
    DigitReads(n % 10);
    if n < 10 {
      assert Decimal(n)[..0] == [];
    } else {
      DecimalReads(n / 10);
      assert Decimal(n)[..|Decimal(n)| - 1] == Decimal(n / 10);
    }
  }

  // ----- names are distinct -----

  predicate DigitsOnly(s: string) {
    forall i :: 0 <= i < |s| ==> '0' <= s[i] <= '9'
  }

  lemma {:induction false} DecimalDigits(n: nat)
    ensures DigitsOnly(Decimal(n))
  {
    if n >= 10 { DecimalDigits(n / 10); }
  }

  lemma DigitInjective(a: nat, b: nat)
    requires a < 10 && b < 10 && Digit(a) == Digit(b)
    ensures a == b
  {
  }

  lemma {:induction false} DecimalInjective(a: nat, b: nat)
    requires Decimal(a) == Decimal(b)
    ensures a == b
  {
    hide Digit;
    var s := Decimal(a);
    if a >= 10 && b >= 10 {
      assert s[..|s| - 1] == Decimal(a / 10) == Decimal(b / 10);
      assert s[|s| - 1] == Digit(a % 10) == Digit(b % 10);
      DecimalInjective(a / 10, b / 10);
      DigitInjective(a % 10, b % 10);
    } else if a < 10 && b < 10 {
      assert s[0] == Digit(a) == Digit(b);
      DigitInjective(a, b);
    }
  }

  // Where the first dash is, or the length.
  function FirstDash(s: string): nat {
    if s == [] || s[0] == '-' then 0 else 1 + FirstDash(s[1..])
  }

  // A run of digits ends at the first dash.
  lemma {:induction false} DigitsEndAtDash(d: string, rest: string)
    requires DigitsOnly(d) && (rest == [] || rest[0] == '-')
    ensures FirstDash(d + rest) == |d|
  {
    if d == [] {
      assert d + rest == rest;
    } else {
      assert (d + rest)[0] == d[0] && (d + rest)[1..] == d[1..] + rest;
      DigitsEndAtDash(d[1..], rest);
    }
  }

  function Dashed(suffix: nat): (s: string)
    ensures s == [] || s[0] == '-'
  {
    if suffix == 0 then "" else "-" + Decimal(suffix)
  }

  lemma DashedInjective(a: nat, b: nat)
    requires Dashed(a) == Dashed(b)
    ensures a == b
  {
    hide Decimal;
    if a > 0 && b > 0 {
      assert Dashed(a)[1..] == Decimal(a) && Dashed(b)[1..] == Decimal(b);
      DecimalInjective(a, b);
    }
  }

  lemma TailSplits(part: nat, suffix: nat)
    ensures Tail(part, suffix) == (if part <= 1 then "" else "_part" + Decimal(part)) + Dashed(suffix)
  {
    hide Decimal;
  }

  lemma TailHead(part: nat, suffix: nat)
    ensures part > 1 <==> Tail(part, suffix) != [] && Tail(part, suffix)[0] == '_'
  {
    hide Decimal;
  }

  lemma TailInjective(part: nat, suffix: nat, part': nat, suffix': nat)
    requires Tail(part, suffix) == Tail(part', suffix')
    ensures suffix == suffix' && (part == part' || (part <= 1 && part' <= 1))
  {
    hide Decimal, Tail, Dashed;
    TailSplits(part, suffix);
    TailSplits(part', suffix');
    TailHead(part, suffix);
    TailHead(part', suffix');
    var tail := Tail(part, suffix);
    if part <= 1 && part' <= 1 {
      assert "" + Dashed(suffix) == Dashed(suffix) && "" + Dashed(suffix') == Dashed(suffix');
    } else if part > 1 && part' > 1 {
      DecimalDigits(part);
      DecimalDigits(part');
      assert tail[5..] == Decimal(part) + Dashed(suffix);
      assert tail[5..] == Decimal(part') + Dashed(suffix');
      DigitsEndAtDash(Decimal(part), Dashed(suffix));
      DigitsEndAtDash(Decimal(part'), Dashed(suffix'));
      var d := |Decimal(part)|;
      assert tail[5..][..d] == Decimal(part) && tail[5..][d..] == Dashed(suffix);
      assert tail[5..][..d] == Decimal(part') && tail[5..][d..] == Dashed(suffix');
      DecimalInjective(part, part');
    }
    DashedInjective(suffix, suffix');
  }

  lemma NameIsTail(timestamp: string, part: nat, suffix: nat)
    ensures CaptureFilename(timestamp, part, suffix)
         == ("capture_" + timestamp) + Tail(part, suffix) + ".wav"
  {
    hide Decimal;
  }

  // For one timestamp two names agree exactly when the collision suffixes do and
  // the parts do, parts 0 and 1 being the same first part.
  lemma FilenamesDistinct(timestamp: string, part: nat, suffix: nat, part': nat, suffix': nat)
    ensures CaptureFilename(timestamp, part, suffix) == CaptureFilename(timestamp, part', suffix')
       <==> suffix == suffix' && (part == part' || (part <= 1 && part' <= 1))
  {
    hide Decimal, Tail;
    NameIsTail(timestamp, part, suffix);
    NameIsTail(timestamp, part', suffix');
    var head, a, b := "capture_" + timestamp, Tail(part, suffix), Tail(part', suffix');
    if head + a + ".wav" == head + b + ".wav" {
      var name := head + a + ".wav";
      assert |a| == |b|;
      assert name[|head|..|head| + |a|] == a && name[|head|..|head| + |b|] == b;
      hide CaptureFilename;
      TailInjective(part, suffix, part', suffix');
    }
  }

  // ----- what a name tells -----

  predicate IsDigit(c: char) {
    '0' <= c <= '9'
  }

  // Eight digits, an underscore and six digits; or the word for an unreadable clock.
  predicate IsTimestamp(s: string) {
    || s == "unknown"
    || (|s| == 15 && s[8] == '_' && forall i :: 0 <= i < 15 && i != 8 ==> IsDigit(s[i]))
  }

  // What the clock says, if it can be read.
  function ReadClock(clock: string): (timestamp: string)
    ensures IsTimestamp(timestamp)
  {
    if IsTimestamp(clock) then clock else "unknown"
  }

  // Timestamp, part and suffix can be read back from a name.
  lemma NameTells(timestamp: string, part: nat, suffix: nat, timestamp': string, part': nat, suffix': nat)
    requires IsTimestamp(timestamp) && IsTimestamp(timestamp')
    requires CaptureFilename(timestamp, part, suffix) == CaptureFilename(timestamp', part', suffix')
    ensures timestamp == timestamp' && suffix == suffix' && (part == part' || (part <= 1 && part' <= 1))
  {
    hide CaptureFilename, Tail;
    NameIsTail(timestamp, part, suffix);
    NameIsTail(timestamp', part', suffix');
    var name, rest, rest' := CaptureFilename(timestamp, part, suffix), Tail(part, suffix) + ".wav", Tail(part', suffix') + ".wav";
    assert name == "capture_" + timestamp + rest && name == "capture_" + timestamp' + rest';
    assert name[8..][..|timestamp|] == timestamp && name[8..][..|timestamp'|] == timestamp';
    assert name[8] == timestamp[0] && name[8] == timestamp'[0];
    FilenamesDistinct(timestamp, part, suffix, part', suffix');
  }

  // A name of the given part, made at some time with some collision suffix.
  ghost predicate NamedFor(name: string, part: nat) {
    exists timestamp: string, suffix: u32 :: IsTimestamp(timestamp) && name == CaptureFilename(timestamp, part, suffix)
  }

  lemma IsNamedFor(timestamp: string, part: nat, suffix: u32)
    requires IsTimestamp(timestamp)
    ensures NamedFor(CaptureFilename(timestamp, part, suffix), part)
  {
    hide CaptureFilename, IsTimestamp;
  }

  // No name is one of two parts, the first two numbers being one.
  lemma OnePartPerName(name: string, part: nat, part': nat)
    requires NamedFor(name, part) && NamedFor(name, part')
    ensures part == part' || (part <= 1 && part' <= 1)
  {
    hide CaptureFilename, IsTimestamp;
    var t, k :| IsTimestamp(t) && name == CaptureFilename(t, part, k);
    var t', k' :| IsTimestamp(t') && name == CaptureFilename(t', part', k');
    NameTells(t, part, k, t', part', k');
  }

  // ----- exclusive creation -----

  class Directory {
    const device: Device
    var entries: map<string, File>

    constructor (device: Device)
      ensures entries == map[] && this.device == device
    {
      this.device, entries := device, map[];
    }

    // An exclusive open: it fails on an existing name and never touches that file.
    // `found` is the collision; any other failure leaves the directory alone.
    method OpenExclusive(name: string) returns (r: Result<File, IoError>, found: bool)
      modifies this, device
      ensures found <==> name in old(entries)
      ensures device.faults == old(device.faults) + if r.Ok? || found then 0 else 1
      ensures r.Ok? ==>
                && !found && fresh(r.value) && r.value.data == r.value.durable == [] && r.value.device == device
                && entries == old(entries)[name := r.value]
      ensures r.Err? ==> entries == old(entries)
    {
      if name in entries { return Err(Backend), true; }
      var ok: bool := *;
      if !ok {
        device.Answer(false);
        return Err(Backend), false;
      }
      var file := new File(device);
      entries := entries[name := file];
      return Ok(file), false;
    }
  }

  predicate Taken(names: set<string>, timestamp: string, part: nat, suffixes: nat) {
    forall k :: 0 <= k < suffixes ==> CaptureFilename(timestamp, part, k) in names
  }

  // At some time every name of the part was taken.
  ghost predicate NoNameLeft(names: set<string>, part: nat) {
    exists timestamp: string :: IsTimestamp(timestamp) && Taken(names, timestamp, part, U32_MAX + 1)
  }

  // That takes as many entries as there are suffixes.
  lemma {:induction false} TakenNeedsNames(names: set<string>, timestamp: string, part: nat, suffixes: nat)
    requires Taken(names, timestamp, part, suffixes)
    ensures suffixes <= |names|
    decreases suffixes
  {
    hide CaptureFilename;
    if suffixes > 0 {
      var last := CaptureFilename(timestamp, part, suffixes - 1);
      forall k | 0 <= k < suffixes - 1 ensures CaptureFilename(timestamp, part, k) in names - {last} {
        FilenamesDistinct(timestamp, part, k, part, suffixes - 1);
      }
      TakenNeedsNames(names - {last}, timestamp, part, suffixes - 1);
    }
  }

  lemma NamesAreLeft(names: set<string>, part: nat)
    requires |names| <= U32_MAX
    ensures !NoNameLeft(names, part)
  {
    hide CaptureFilename, IsTimestamp;
    forall timestamp: string | IsTimestamp(timestamp) ensures !Taken(names, timestamp, part, U32_MAX + 1) {
      if Taken(names, timestamp, part, U32_MAX + 1) { TakenNeedsNames(names, timestamp, part, U32_MAX + 1); }
    }
  }

  // Retries the exclusive open with the next suffix until one is free. It fails only
  // if the backend does, or if there is no free name.
  method CreateNewCapture(dir: Directory, part: nat, timestamp: string)
    returns (r: Result<File, IoError>, name: string, suffix: u32)
    modifies dir, dir.device
    ensures Fails(r.Err? && r.error != Exhausted, old(dir.device.faults), dir.device.faults)
    ensures r.Err? ==> r.error == Exhausted || r.error == Backend
    ensures r.Ok? ==>
              && name == CaptureFilename(timestamp, part, suffix) && name !in old(dir.entries)
              && Taken(old(dir.entries).Keys, timestamp, part, suffix)
              && fresh(r.value) && r.value.data == r.value.durable == [] && r.value.device == dir.device
              && dir.entries == old(dir.entries)[name := r.value]
    ensures r.Err? ==> dir.entries == old(dir.entries)
    ensures r == Err(Exhausted) ==> Taken(old(dir.entries).Keys, timestamp, part, U32_MAX + 1)
  {
    hide CaptureFilename;
    suffix := 0;
    while true
      invariant dir.entries == old(dir.entries) && dir.device.faults == old(dir.device.faults)
      invariant Taken(dir.entries.Keys, timestamp, part, suffix)
      decreases U32_MAX - suffix
    {
      name := CaptureFilename(timestamp, part, suffix);
      var file, found := dir.OpenExclusive(name);
      if file.Ok? { return file, name, suffix; }
      if !found { return Err(Backend), name, suffix; }
      if suffix == U32_MAX { return Err(Exhausted), name, suffix; }
      suffix := suffix + 1;
    }
  }
}
