/**
 Firmware file names and the two selectors of the newest file for a flavor, internal/firmware/service.go.
 A listing is a sequence of files as ListFirmware returns it; walking the directory is not modelled.
 */
module FirmwareFiles {
  import opened Basics
  import opened Text
  import opened FirmwareVersions

  // ---------- splitting a name ----------

  // One more character in front.
  function Attach(c: char, parts: seq<string>): (r: seq<string>)
    requires parts != []
    ensures r != []
  {
    if c == '.' then [""] + parts else [[c] + parts[0]] + parts[1..]
  }

  // strings.Split(s, ".")
  function SplitDots(s: string): (parts: seq<string>)
    ensures parts != []
  {
    if s == "" then [""] else Attach(s[0], SplitDots(s[1..]))
  }

  lemma AttachConcat(c: char, x: seq<string>, y: seq<string>)
    requires x != []
    ensures Attach(c, x + y) == Attach(c, x) + y
  {
    assert (x + y)[1..] == x[1..] + y;
  }

  lemma {:induction false} SplitAtDot(a: string, b: string)
    ensures SplitDots(a + "." + b) == SplitDots(a) + SplitDots(b)
  {
    var t := a + "." + b;
    if a == "" {
      assert t[0] == '.' && t[1..] == b;
    } else {
      SplitAtDot(a[1..], b);
      assert t[0] == a[0] && t[1..] == a[1..] + "." + b;
      AttachConcat(a[0], SplitDots(a[1..]), SplitDots(b));
    }
  }

  predicate NoDot(s: string) { forall i :: 0 <= i < |s| ==> s[i] != '.' }

  lemma {:induction false} SplitNoDot(s: string)
    requires NoDot(s)
    ensures SplitDots(s) == [s]
  {
    if s != "" {
      SplitNoDot(s[1..]);
      assert [s[0]] + s[1..] == s;
    }
  }

  // ---------- the version in a name ----------

  function LeadingDigits(s: string): (n: nat)
    ensures n <= |s| && AllDigits(s[..n]) && (n < |s| ==> !IsDigit(s[n]))
  {
    if s == "" || !IsDigit(s[0]) then 0 else 1 + LeadingDigits(s[1..])
  }

  predicate StartsVersion(part: string) { |part| > 1 && part[0] == 'v' && IsDigit(part[1]) }

  // The parts from j on that belong to the version: each starts with digits, a part with more than digits
  // is the last.
  function VersionTail(parts: seq<string>, j: nat, end: nat): string
    decreases end - j
  {
    if j >= end || j >= |parts| || LeadingDigits(parts[j]) == 0 then ""
    else if LeadingDigits(parts[j]) < |parts[j]| then "." + parts[j]
    else "." + parts[j] + VersionTail(parts, j + 1, end)
  }

  function VersionFrom(parts: seq<string>, i: nat): string
    decreases |parts| - i
  {
    if i >= |parts| then ""
    else if StartsVersion(parts[i]) then parts[i] + VersionTail(parts, i + 1, i + 3)
    else VersionFrom(parts, i + 1)
  }

  method ExtractVersion(parts: seq<string>) returns (version: string)
    ensures version == VersionFrom(parts, 0)
  {
    for i := 0 to |parts|
      invariant VersionFrom(parts, 0) == VersionFrom(parts, i)
    {
      if StartsVersion(parts[i]) {
        version := parts[i];
        var j := i + 1;
        while j < |parts| && j < i + 3
          invariant i < j <= i + 3
          invariant version + VersionTail(parts, j, i + 3) == VersionFrom(parts, 0)
        {
          var part := parts[j];
          var numEnd := 0;
          while numEnd < |part| && IsDigit(part[numEnd])
            invariant 0 <= numEnd <= |part| && AllDigits(part[..numEnd])
          {
            numEnd := numEnd + 1;
          }
          DigitsEnd(part, numEnd);
          if numEnd > 0 {
            version := version + "." + part;
            if numEnd < |part| { return; }
          } else {
            break;
          }
          j := j + 1;
        }
        return;
      }
    }
    version := "";
  }

  lemma {:induction false} DigitsEnd(s: string, n: nat)
    requires n <= |s| && AllDigits(s[..n]) && (n < |s| ==> !IsDigit(s[n]))
    ensures LeadingDigits(s) == n
  {
    if n > 0 {
      assert s[..n][0] == s[0];
      assert s[1..][..n - 1] == s[..n][1..];
      DigitsEnd(s[1..], n - 1);
    }
  }

  // ---------- file names ----------

  datatype FirmwareFile =
    FirmwareFile(name: string, path: string, platform: string, flavor: string, airMax: string, version: string)

  function NameParts(filename: string): seq<string> { SplitDots(TrimSuffix(Lower(filename), ".bin")) }

  // The platform a name's first part stands for.
  function PlatformOf(prefix: string): Option<string> {
    if prefix in {"GMC", "GMP", "MGMP", "GP"} then Some("Wave")
    else if prefix == "MW" then Some("MLO")
    else if Lower(prefix) in {"aflturocket", "afltu", "af5xhd"} then Some("LTU")
    else if prefix in {"XC", "2XC", "WA", "2WA"} then Some("airMAX AC")
    else if prefix in {"XM", "XW", "TI"} then Some("airMAX M")
    else if HasPrefix(prefix, "AF") && |prefix| >= 3 then Some("AirFiber")
    else None
  }

  function ParseFirmwareFilename(filename: string): FirmwareFile {
    var parts := NameParts(filename);
    var prefix := Upper(parts[0]);
    var platform := PlatformOf(prefix);
    if platform.None? then FirmwareFile(filename, "", "", "", "", "")
    else
      var isAirMax := platform.value == "airMAX AC" || platform.value == "airMAX M";
      FirmwareFile(filename, "", platform.value, prefix, if isAirMax then prefix else "", VersionFrom(parts, 0))
  }

  predicate Opens(part: string) { |part| >= 2 && part[0] == 'v' && '0' <= part[1] <= '9' }

  predicate Numbered(part: string) { part != "" && '0' <= part[0] <= '9' }

  predicate NumberOnly(part: string) { part != "" && forall i :: 0 <= i < |part| ==> '0' <= part[i] <= '9' }

  lemma {:induction false} SkipsTo(parts: seq<string>, i: nat, from: nat)
    requires from <= i <= |parts| && forall j :: 0 <= j < i ==> !Opens(parts[j])
    ensures VersionFrom(parts, from) == VersionFrom(parts, i)
    decreases i - from
  {
    if from < i { SkipsTo(parts, i, from + 1); }
  }

  lemma NumberParts(part: string)
    ensures LeadingDigits(part) == 0 <==> !Numbered(part)
    ensures Numbered(part) ==> (LeadingDigits(part) == |part| <==> NumberOnly(part))
  {
    var n := LeadingDigits(part);
    assert n == |part| ==> part[..n] == part;
  }

  // One part, or two, of those that may follow.
  lemma LastPart(parts: seq<string>, j: nat)
    ensures VersionTail(parts, j, j + 1) == if j < |parts| && Numbered(parts[j]) then "." + parts[j] else ""
  {
    if j < |parts| {
      NumberParts(parts[j]);
      var rest := VersionTail(parts, j + 1, j + 1);
      assert "." + parts[j] + rest == "." + parts[j];
    }
  }

  lemma TwoParts(parts: seq<string>, j: nat)
    ensures VersionTail(parts, j, j + 2)
         == if j >= |parts| || !Numbered(parts[j]) then ""
            else if !NumberOnly(parts[j]) then "." + parts[j]
            else "." + parts[j] + VersionTail(parts, j + 1, j + 2)
  {
    if j < |parts| { NumberParts(parts[j]); }
  }

  // The next two parts, as long as they begin with a digit and what went before was only a number.
  function Following(parts: seq<string>, j: nat): string {
    if j >= |parts| || !Numbered(parts[j]) then ""
    else if j + 1 >= |parts| || !Numbered(parts[j + 1]) || !NumberOnly(parts[j]) then "." + parts[j]
    else "." + parts[j] + "." + parts[j + 1]
  }

  lemma TailExact(parts: seq<string>, j: nat)
    ensures VersionTail(parts, j, j + 2) == Following(parts, j)
  {
    TwoParts(parts, j);
    LastPart(parts, j + 1);
    if j < |parts| { assert "." + parts[j] + "" == "." + parts[j]; }
    if j + 1 < |parts| { assert "." + parts[j] + ("." + parts[j + 1]) == "." + parts[j] + "." + parts[j + 1]; }
  }

  lemma StartsHere(parts: seq<string>, i: nat)
    requires i < |parts| && Opens(parts[i])
    ensures VersionFrom(parts, i) == parts[i] + Following(parts, i + 1)
  {
    TailExact(parts, i + 1);
  }

  // The version begins at the first part that is a "v" and a digit, and goes on with what follows it.
  lemma {:induction false} VersionExact(parts: seq<string>, i: nat, from: nat)
    requires from <= i < |parts| && Opens(parts[i]) && forall j :: from <= j < i ==> !Opens(parts[j])
    ensures VersionFrom(parts, from) == parts[i] + Following(parts, i + 1)
    decreases i - from
  {
    if from == i { StartsHere(parts, i); } else { VersionExact(parts, i, from + 1); }
  }

  // No such part, no version.
  lemma NoVersion(parts: seq<string>)
    requires forall j :: 0 <= j < |parts| ==> !Opens(parts[j])
    ensures VersionFrom(parts, 0) == ""
  {
    SkipsTo(parts, |parts|, 0);
  }

  // The flavors, in capital letters: four of Wave, one of MLO, seven of airMAX, and whatever begins with "AF" and
  // goes on.
  predicate KnownFlavor(p: string) {
    || p in ["GMC", "GMP", "MGMP", "GP", "MW", "XC", "2XC", "WA", "2WA", "XM", "XW", "TI"]
    || (|p| >= 3 && p[0] == 'A' && p[1] == 'F')
  }

  // The first part of a name, in capital letters, is the flavor of the file if it is a known one; otherwise the file
  // has neither flavor nor version.
  lemma FlavorOfName(filename: string, first: string, rest: string)
    requires Lower(filename) == first + "." + rest + ".bin" && NoDot(first)
    ensures var f, p := ParseFirmwareFilename(filename), Upper(first);
            && f.flavor == (if KnownFlavor(p) then p else "")
            && f.version == (if KnownFlavor(p) then VersionFrom([first] + SplitDots(rest), 0) else "")
            && (f.airMax != "" <==> p in ["XC", "2XC", "WA", "2WA", "XM", "XW", "TI"])
            && (f.airMax != "" ==> f.airMax == p)
  {
    assert Lower(filename) == (first + "." + rest) + ".bin";
    WithoutSuffix(first + "." + rest, ".bin");
    SplitAtDot(first, rest);
    SplitNoDot(first);
    KnownExact(Upper(first));
  }

  lemma KnownExact(p: string)
    requires forall i :: 0 <= i < |p| ==> !('a' <= p[i] <= 'z')
    ensures PlatformOf(p).Some? <==> KnownFlavor(p)
    ensures PlatformOf(p) in {Some("airMAX AC"), Some("airMAX M")}
            <==> p in ["XC", "2XC", "WA", "2WA", "XM", "XW", "TI"]
  {
    assert |p| >= 3 ==> (HasPrefix(p, "AF") <==> p[0] == 'A' && p[1] == 'F') by {
      if |p| >= 3 && p[0] == 'A' && p[1] == 'F' { assert p[..2] == "AF"; }
      if HasPrefix(p, "AF") { assert p[..2][0] == 'A' && p[..2][1] == 'F'; }
    }
    if |p| >= 2 { assert Lower(p)[0] == LowerChar(p[0]) && Lower(p)[1] == LowerChar(p[1]); }
  }

  // ---------- names of released files ----------

  // The version text of a release with these three numbers.
  function VersionText(a: nat, b: nat, c: nat): string { "v" + Dec(a) + "." + Dec(b) + "." + Dec(c) }

  // A name F.S.vA.B.C.tail.bin: the parts before the version hold no version of their own, and tail is
  // empty or starts with a dot.
  predicate ReleaseName(filename: string, prefix: string, a: nat, b: nat, c: nat, tail: string) {
    && Lower(filename) == prefix + "." + VersionText(a, b, c) + tail + ".bin"
    && (forall i :: 0 <= i < |SplitDots(prefix)| ==> !StartsVersion(SplitDots(prefix)[i]))
    && (tail == "" || tail[0] == '.')
    && PlatformOf(Upper(SplitDots(prefix)[0])).Some?
  }

  lemma DecHasNoDot(n: nat)
    ensures NoDot(Dec(n)) && LeadingDigits(Dec(n)) == |Dec(n)|
  {
    forall i | 0 <= i < |Dec(n)| ensures Dec(n)[i] != '.' { assert IsDigit(Dec(n)[i]); }
    DigitsEnd(Dec(n), |Dec(n)|);
  }

  lemma SplitThree(x: string, y: string, z: string, tail: string)
    requires NoDot(x) && NoDot(y) && NoDot(z) && (tail == "" || tail[0] == '.')
    ensures var parts := SplitDots(x + "." + (y + "." + (z + tail)));
            |parts| >= 3 && parts[0] == x && parts[1] == y && parts[2] == z
  {
    SplitNoDot(x);
    SplitNoDot(y);
    SplitNoDot(z);
    if tail == "" {
      assert z + tail == z;
    } else {
      SplitAtDot(z, tail[1..]);
      assert z + tail == z + "." + tail[1..];
    }
    assert SplitDots(z + tail)[0] == z;
    SplitAtDot(y, z + tail);
    SplitAtDot(x, y + "." + (z + tail));
  }

  lemma VersionSplit(a: nat, b: nat, c: nat, tail: string)
    requires tail == "" || tail[0] == '.'
    ensures var parts := SplitDots(VersionText(a, b, c) + tail);
            |parts| >= 3 && parts[0] == "v" + Dec(a) && parts[1] == Dec(b) && parts[2] == Dec(c)
  {
    DecHasNoDot(a);
    DecHasNoDot(b);
    DecHasNoDot(c);
    SplitThree("v" + Dec(a), Dec(b), Dec(c), tail);
    RegroupTail("v" + Dec(a), Dec(b), Dec(c), tail);
  }

  lemma RegroupTail(x: string, y: string, z: string, tail: string)
    ensures x + "." + y + "." + z + tail == x + "." + (y + "." + (z + tail))
  {}

  lemma {:induction false} VersionAfter(pre: seq<string>, rest: seq<string>, i: nat)
    requires i <= |pre| && rest != [] && StartsVersion(rest[0])
    requires forall k :: 0 <= k < |pre| ==> !StartsVersion(pre[k])
    ensures VersionFrom(pre + rest, i) == (pre + rest)[|pre|] + VersionTail(pre + rest, |pre| + 1, |pre| + 3)
    decreases |pre| - i
  {
    if i < |pre| { VersionAfter(pre, rest, i + 1); }
  }

  lemma WithoutSuffix(s: string, p: string)
    ensures TrimSuffix(s + p, p) == s
  {
    assert (s + p)[|s + p| - |p|..] == p;
    assert (s + p)[..|s|] == s;
  }

  // What follows the third number never becomes part of the version.
  lemma ReleaseVersion(filename: string, prefix: string, a: nat, b: nat, c: nat, tail: string)
    requires ReleaseName(filename, prefix, a, b, c, tail)
    ensures ParseFirmwareFilename(filename).version == VersionText(a, b, c)
    ensures ParseFirmwareFilename(filename).flavor == Upper(SplitDots(prefix)[0])
  {
    var pre, rest := SplitDots(prefix), SplitDots(VersionText(a, b, c) + tail);
    var name := prefix + "." + (VersionText(a, b, c) + tail);
    var lower := Lower(filename);
    assert lower == name + ".bin";
    WithoutSuffix(name, ".bin");
    SplitAtDot(prefix, VersionText(a, b, c) + tail);
    assert NameParts(filename) == pre + rest;
    VersionSplit(a, b, c, tail);
    assert IsDigit(Dec(a)[0]);
    VersionAfter(pre, rest, 0);
    ThreeParts(pre, rest, a, b, c);
  }

  lemma ThreeParts(pre: seq<string>, rest: seq<string>, a: nat, b: nat, c: nat)
    requires |rest| >= 3 && rest[0] == "v" + Dec(a) && rest[1] == Dec(b) && rest[2] == Dec(c)
    ensures (pre + rest)[|pre|] + VersionTail(pre + rest, |pre| + 1, |pre| + 3) == VersionText(a, b, c)
  {
    var parts, n := pre + rest, |pre|;
    DecHasNoDot(b);
    DecHasNoDot(c);
    assert VersionTail(parts, n + 3, n + 3) == "";
    assert VersionTail(parts, n + 2, n + 3) == "." + Dec(c);
    assert VersionTail(parts, n + 1, n + 3) == "." + Dec(b) + ("." + Dec(c));
  }

  lemma NormalizeV(numbers: string)
    requires numbers != "" && IsDigit(numbers[0]) && IsDigit(numbers[|numbers| - 1])
    ensures Normalize("v" + numbers) == numbers
  {
    var text := "v" + numbers;
    assert text[|text| - 1] == numbers[|numbers| - 1];
    assert text[..1] == "v" && text[1..] == numbers;
    OtherStart(numbers, "V");
  }

  lemma Dotted(x: string, y: string, z: string)
    requires x != "" && z != ""
    ensures var s := x + "." + y + "." + z;
            s != "" && s[0] == x[0] && s[|s| - 1] == z[|z| - 1] && "v" + x + "." + y + "." + z == "v" + s
  {}

  lemma VersionFields(a: nat, b: nat, c: nat)
    ensures Fields(Normalize(VersionText(a, b, c))) == [Dec(a), Dec(b), Dec(c)]
  {
    DecIsPlain(a);
    DecIsPlain(b);
    DecIsPlain(c);
    DigitEnds(a);
    DigitEnds(c);
    NumberFields(Dec(a), Dec(b), Dec(c));
  }

  lemma NumberFields(x: string, y: string, z: string)
    requires x != "" && y != "" && z != "" && Plain(x) && Plain(y) && Plain(z)
    requires IsDigit(x[0]) && IsDigit(z[|z| - 1])
    ensures Fields(Normalize("v" + x + "." + y + "." + z)) == [x, y, z]
  {
    Dotted(x, y, z);
    NormalizeV(x + "." + y + "." + z);
    FieldsOfThree(x, y, z);
  }

  lemma DigitEnds(n: nat)
    ensures IsDigit(Dec(n)[0]) && IsDigit(Dec(n)[|Dec(n)| - 1])
  {}

  predicate Before(a: nat, b: nat, c: nat, a': nat, b': nat, c': nat) {
    a < a' || (a == a' && b < b') || (a == a' && b == b' && c < c')
  }

  // Two numbers compare as numbers: both fit an int, or their texts are in the same order.
  predicate Agrees(m: nat, n: nat) {
    (m <= MAX_INT && n <= MAX_INT) || (m < n <==> TextCompare(Dec(m), Dec(n)) < 0)
  }

  // A number that does not fit an int is compared as text, even with another number.
  lemma BeyondInt(m: nat, n: nat)
    requires m > MAX_INT || n > MAX_INT
    ensures PartCompare(Dec(m), Dec(n)) == TextCompare(Dec(m), Dec(n))
  {
    DecIsLower(m);
    DecIsLower(n);
    DecValue(m);
    DecValue(n);
    TextEqual(Dec(m), Dec(n));
  }

  lemma NumbersCompare(m: nat, n: nat)
    ensures PartCompare(Dec(m), Dec(n)) == 0 <==> m == n
    ensures m != n ==> ((PartCompare(Dec(m), Dec(n)) < 0 <==> m < n) <==> Agrees(m, n))
  {
    if m <= MAX_INT && n <= MAX_INT {
      AtoiDec(m);
      AtoiDec(n);
    } else {
      BeyondInt(m, n);
      TextEqual(Dec(m), Dec(n));
      if Dec(m) == Dec(n) { DecInjective(m, n); }
    }
  }

  lemma ThreePartsCompare(x: seq<string>, y: seq<string>)
    requires |x| == |y| == 3
    ensures CompareFrom(x, y, 0)
         == if PartCompare(x[0], y[0]) != 0 then PartCompare(x[0], y[0])
            else if PartCompare(x[1], y[1]) != 0 then PartCompare(x[1], y[1])
            else PartCompare(x[2], y[2])
  {
    assert CompareFrom(x, y, 3) == 0;
    assert CompareFrom(x, y, 2) == if PartCompare(x[2], y[2]) != 0 then PartCompare(x[2], y[2]) else 0;
  }

  // Comparing the versions of two released files says "equal" exactly if their three numbers are equal. Otherwise it
  // orders them like the numbers, first number first, if and only if the first two numbers that differ agree.
  lemma ReleaseOrder(f: string, p: string, a: nat, b: nat, c: nat, t: string,
                     f': string, p': string, a': nat, b': nat, c': nat, t': string)
    requires ReleaseName(f, p, a, b, c, t) && ReleaseName(f', p', a', b', c', t')
    ensures var cmp := CompareVersions(ParseFirmwareFilename(f).version, ParseFirmwareFilename(f').version);
            && (cmp == 0 <==> a == a' && b == b' && c == c')
            && (cmp != 0 ==> ((cmp < 0 <==> Before(a, b, c, a', b', c'))
                              <==> if a != a' then Agrees(a, a') else if b != b' then Agrees(b, b') else Agrees(c, c')))
  {
    ReleaseVersion(f, p, a, b, c, t);
    ReleaseVersion(f', p', a', b', c', t');
    VersionFields(a, b, c);
    VersionFields(a', b', c');
    ThreePartsCompare([Dec(a), Dec(b), Dec(c)], [Dec(a'), Dec(b'), Dec(c')]);
    NumbersCompare(a, a');
    NumbersCompare(b, b');
    NumbersCompare(c, c');
  }

  function Pow10(k: nat): (p: nat)
    ensures p > 0
  {
    if k == 0 then 1 else 10 * Pow10(k - 1)
  }

  lemma DecTimesTen(m: nat)
    requires m > 0
    ensures Dec(10 * m) == Dec(m) + [Digit(0)]
  {
    assert 10 * m / 10 == m && 10 * m % 10 == 0;
  }

  lemma {:induction false} LeadingDigit(d: nat, k: nat)
    requires 0 < d < 10
    ensures d * Pow10(k) > 0 && Dec(d * Pow10(k))[0] == Digit(d)
  {
    if k == 0 {
      assert d * Pow10(0) == d;
    } else {
      LeadingDigit(d, k - 1);
      var m := d * Pow10(k - 1);
      assert d * Pow10(k) == 10 * m;
      DecTimesTen(m);
    }
  }

  lemma BigNumbersDisagree(k: nat)
    requires Pow10(k + 1) > MAX_INT
    ensures 9 * Pow10(k) < Pow10(k + 1) && !Agrees(9 * Pow10(k), Pow10(k + 1))
  {
    LeadingDigit(9, k);
    LeadingDigit(1, k + 1);
    assert 1 * Pow10(k + 1) == Pow10(k + 1);
  }

  // So a file of version 9 * 10^k comes out newer than one of version 10^(k + 1), for every k from 18 on.
  lemma BigReleasesReversed(k: nat, f: string, p: string, b: nat, c: nat, t: string,
                            f': string, p': string, b': nat, c': nat, t': string)
    requires Pow10(k + 1) > MAX_INT
    requires ReleaseName(f, p, 9 * Pow10(k), b, c, t) && ReleaseName(f', p', Pow10(k + 1), b', c', t')
    ensures CompareVersions(ParseFirmwareFilename(f).version, ParseFirmwareFilename(f').version) > 0
  {
    BigNumbersDisagree(k);
    ReleaseOrder(f, p, 9 * Pow10(k), b, c, t, f', p', Pow10(k + 1), b', c', t');
  }

  // ---------- the two selectors ----------

  function Base(path: string): string {
    if exists i :: 0 <= i < |path| && path[i] == '/' then Base(path[1..]) else path
  }

  function Listed(path: string): FirmwareFile { ParseFirmwareFilename(Base(path)).(path := path) }

  predicate IsListing(files: seq<FirmwareFile>) {
    forall i :: 0 <= i < |files| ==> files[i] == Listed(files[i].path)
  }

  // The selection both must make: the first fitting file with a version that none later beats.
  function Newest(files: seq<FirmwareFile>, fits: FirmwareFile -> bool, newer: (string, string) -> bool)
    : Option<FirmwareFile>
  {
    if files == [] then None
    else
      var best := Newest(files[..|files| - 1], fits, newer);
      var f := files[|files| - 1];
      if fits(f) && f.version != "" && (best.None? || newer(f.version, best.value.version)) then Some(f) else best
  }

  function Candidates(files: seq<FirmwareFile>, fits: FirmwareFile -> bool): seq<string> {
    if files == [] then []
    else
      var f := files[|files| - 1];
      Candidates(files[..|files| - 1], fits) + if fits(f) then [f.path] else []
  }

  function OfFlavor(flavor: string): FirmwareFile -> bool { (f: FirmwareFile) => EqualFold(f.flavor, flavor) }

  // The same character, or the small and the capital form of one letter.
  predicate SameFolded(c: char, d: char) {
    || c == d
    || ('a' <= c <= 'z' && d == c - 'a' + 'A')
    || ('a' <= d <= 'z' && c == d - 'a' + 'A')
  }

  // Flavors fit if they are the same but for small and capital letters.
  lemma FlavorExact(f: FirmwareFile, flavor: string)
    ensures OfFlavor(flavor)(f)
            <==> |f.flavor| == |flavor| && forall i :: 0 <= i < |flavor| ==> SameFolded(f.flavor[i], flavor[i])
  {
    var x, y := Lower(f.flavor), Lower(flavor);
    assert |x| == |f.flavor| && |y| == |flavor|;
    if |f.flavor| == |flavor| {
      forall i | 0 <= i < |flavor| ensures x[i] == y[i] <==> SameFolded(f.flavor[i], flavor[i]) {}
    }
  }

  function PathVersion(path: string): string { ParseFirmwareFilename(Base(path)).version }

  // The same choice on the candidates' paths alone.
  function NewestPath(paths: seq<string>, version: string -> string, newer: (string, string) -> bool)
    : Option<string>
  {
    if paths == [] then None
    else
      var best := NewestPath(paths[..|paths| - 1], version, newer);
      var v := version(paths[|paths| - 1]);
      if v != "" && (best.None? || newer(v, version(best.value))) then Some(paths[|paths| - 1]) else best
  }

  lemma NewestPathStep(paths: seq<string>, path: string, version: string -> string, newer: (string, string) -> bool)
    ensures var best := NewestPath(paths, version, newer);
            (NewestPath(paths + [path], version, newer)
             == if version(path) != "" && (best.None? || newer(version(path), version(best.value)))
                then Some(path) else best)
  {
    assert (paths + [path])[..|paths|] == paths;
  }

  lemma {:induction false} PathsDecide(files: seq<FirmwareFile>, fits: FirmwareFile -> bool,
                                       version: string -> string, newer: (string, string) -> bool)
    requires forall i :: 0 <= i < |files| ==> files[i].version == version(files[i].path)
    ensures NewestPath(Candidates(files, fits), version, newer)
         == (match Newest(files, fits, newer) case None => None case Some(f) => Some(f.path))
    ensures var best := Newest(files, fits, newer); best.Some? ==> best.value.version == version(best.value.path)
  {
    if files != [] {
      var init, f := files[..|files| - 1], files[|files| - 1];
      PathsDecide(init, fits, version, newer);
      assert f.version == version(f.path);
      if fits(f) {
        NewestPathStep(Candidates(init, fits), f.path, version, newer);
      } else {
        assert Candidates(init, fits) + [] == Candidates(init, fits);
      }
    }
  }

  lemma ListedVersions(files: seq<FirmwareFile>)
    requires IsListing(files)
    ensures forall i :: 0 <= i < |files| ==> files[i].version == PathVersion(files[i].path)
  {}

  predicate Greatest(s: string, all: seq<string>) { s in all && forall t :: t in all ==> TextCompare(t, s) <= 0 }

  // Head of the reverse-sorted candidates.
  method LastByName(paths: seq<string>) returns (best: string)
    requires paths != []
    ensures Greatest(best, paths)
  {
    best := paths[0];
    TextEqual(best, best);
    for i := 1 to |paths|
      invariant best in paths[..i]
      invariant forall t :: t in paths[..i] ==> TextCompare(t, best) <= 0
    {
      if TextCompare(paths[i], best) > 0 {
        forall t | t in paths[..i] ensures TextCompare(t, paths[i]) <= 0 {
          TextAtMost(t, best, paths[i]);
        }
        best := paths[i];
        TextEqual(best, best);
      }
      assert paths[..i + 1] == paths[..i] + [paths[i]];
    }
    assert paths[..|paths|] == paths;
  }

  lemma TextAtMost(a: string, b: string, c: string)
    requires TextCompare(a, b) <= 0 && TextCompare(c, b) > 0
    ensures TextCompare(a, c) <= 0
  {
    TextAntisymmetric(b, c);
    TextEqual(a, b);
    if TextCompare(a, b) < 0 { TextTransitive(a, b, c); }
  }

  // The loop over the candidates; no path if none has a version.
  method NewestCandidate(candidates: seq<string>, version: string -> string, newer: (string, string) -> bool)
    returns (best: Option<string>)
    requires candidates != []
    ensures best == NewestPath(candidates, version, newer)
  {
    var bestPath := candidates[0];
    var bestVer := version(bestPath);
    assert candidates[..1] == [] + [bestPath];
    NewestPathStep([], bestPath, version, newer);
    for i := 1 to |candidates|
      invariant bestVer == version(bestPath)
      invariant NewestPath(candidates[..i], version, newer) == if bestVer == "" then None else Some(bestPath)
    {
      assert candidates[..i + 1] == candidates[..i] + [candidates[i]];
      NewestPathStep(candidates[..i], candidates[i], version, newer);
      var v := version(candidates[i]);
      if v == "" { continue; }
      if bestVer == "" || newer(v, bestVer) {
        bestPath := candidates[i];
        bestVer := v;
      }
    }
    assert candidates[..|candidates|] == candidates;
    best := if bestVer == "" then None else Some(bestPath);
  }

  method CandidatePaths(files: seq<FirmwareFile>, fits: FirmwareFile -> bool) returns (candidates: seq<string>)
    ensures candidates == Candidates(files, fits)
  {
    candidates := [];
    for i := 0 to |files|
      invariant candidates == Candidates(files[..i], fits)
    {
      assert files[..i + 1][..i] == files[..i];
      if fits(files[i]) { candidates := candidates + [files[i].path]; }
    }
    assert files[..|files|] == files;
  }

  // What an upgrade uses. With a version to go by it is the file that the dry run shows.
  method FindFirmwareForFlavor(files: seq<FirmwareFile>, flavor: string, newer: (string, string) -> bool)
    returns (chosen: Option<string>)
    requires IsListing(files)
    ensures var newest := Newest(files, OfFlavor(flavor), newer);
            && (newest.Some? ==> chosen == Some(newest.value.path))
            && (newest.None? && chosen.Some? ==> Greatest(chosen.value, Candidates(files, OfFlavor(flavor))))
    ensures chosen.None? <==> forall i :: 0 <= i < |files| ==> !OfFlavor(flavor)(files[i])
  {
    var candidates := CandidatePaths(files, OfFlavor(flavor));
    NoCandidates(files, OfFlavor(flavor), newer);
    if |candidates| == 0 { return None; }
    ListedVersions(files);
    PathsDecide(files, OfFlavor(flavor), PathVersion, newer);
    chosen := NewestCandidate(candidates, PathVersion, newer);
    if chosen.None? {
      var last := LastByName(candidates);
      chosen := Some(last);
    }
  }

  lemma {:induction false} NoCandidates(files: seq<FirmwareFile>, fits: FirmwareFile -> bool,
                                        newer: (string, string) -> bool)
    ensures Candidates(files, fits) == [] <==> forall i :: 0 <= i < |files| ==> !fits(files[i])
    ensures Candidates(files, fits) == [] ==> Newest(files, fits, newer).None?
  {
    if files != [] { NoCandidates(files[..|files| - 1], fits, newer); }
  }

  // What the dry run shows.
  method SelectFirmwareForDevice(files: seq<FirmwareFile>, flavor: string, newer: (string, string) -> bool)
    returns (best: Option<FirmwareFile>)
    ensures best == Newest(files, OfFlavor(flavor), newer)
  {
    best := None;
    for i := 0 to |files|
      invariant best == Newest(files[..i], OfFlavor(flavor), newer)
    {
      assert files[..i + 1][..i] == files[..i];
      var f := files[i];
      if EqualFold(f.flavor, flavor) {
        if f.version == "" { continue; }
        if best.None? || newer(f.version, best.value.version) { best := Some(f); }
      }
    }
    assert files[..|files|] == files;
  }

  // ---------- the selected file is the newest ----------

  predicate Versioned(f: FirmwareFile, fits: FirmwareFile -> bool) { fits(f) && f.version != "" }

  function NewerVersion(): (string, string) -> bool { (v, w) => CompareVersions(v, w) > 0 }

  // Whether files[k] fits, none that fits beats it and it beats all that fit before it.
  ghost predicate IsMaximum(files: seq<FirmwareFile>, fits: FirmwareFile -> bool, k: int) {
    && 0 <= k < |files| && Versioned(files[k], fits)
    && (forall i :: 0 <= i < |files| && Versioned(files[i], fits)
          ==> CompareVersions(files[i].version, files[k].version) <= 0)
    && (forall i :: 0 <= i < k && Versioned(files[i], fits)
          ==> CompareVersions(files[i].version, files[k].version) < 0)
  }

  // The versions that fit have one count of numbers, or no tags.
  ghost predicate OrderedListing(files: seq<FirmwareFile>, fits: FirmwareFile -> bool, counts: set<nat>, tags: bool) {
    && (!tags || forall m, n :: m in counts && n in counts ==> m == n)
    && forall i :: 0 <= i < |files| && Versioned(files[i], fits) ==> InClass(files[i].version, counts, tags)
  }

  // Then the selected file is the first of the newest ones.
  lemma {:induction false} NewestIsMaximum(files: seq<FirmwareFile>, fits: FirmwareFile -> bool, counts: set<nat>,
                                           tags: bool)
    requires OrderedListing(files, fits, counts, tags)
    ensures var best := Newest(files, fits, NewerVersion());
            && (best.None? <==> forall i :: 0 <= i < |files| ==> !Versioned(files[i], fits))
            && (best.Some? ==> exists k :: IsMaximum(files, fits, k) && best.value == files[k])
  {
    if files != [] {
      var init, f := files[..|files| - 1], files[|files| - 1];
      assert files == init + [f];
      NewestIsMaximum(init, fits, counts, tags);
      NewestStep(init, f, fits, NewerVersion());
      var best := Newest(init, fits, NewerVersion());
      if best.Some? {
        var k :| IsMaximum(init, fits, k) && best.value == init[k];
        MaximumStep(init, f, fits, k, counts, tags);
      } else if Versioned(f, fits) {
        FirstMaximum(init, f, fits);
      }
    }
  }

  lemma NewestStep(init: seq<FirmwareFile>, f: FirmwareFile, fits: FirmwareFile -> bool,
                   newer: (string, string) -> bool)
    ensures var best := Newest(init, fits, newer);
            (Newest(init + [f], fits, newer)
             == if Versioned(f, fits) && (best.None? || newer(f.version, best.value.version)) then Some(f) else best)
  {
    assert (init + [f])[..|init|] == init;
  }

  lemma FirstMaximum(init: seq<FirmwareFile>, f: FirmwareFile, fits: FirmwareFile -> bool)
    requires Versioned(f, fits) && forall i :: 0 <= i < |init| ==> !Versioned(init[i], fits)
    ensures IsMaximum(init + [f], fits, |init|)
  {
    Antisymmetric(f.version, f.version);
    assert (init + [f])[|init|] == f;
    assert forall i :: 0 <= i < |init| ==> (init + [f])[i] == init[i];
  }

  lemma MaximumStep(init: seq<FirmwareFile>, f: FirmwareFile, fits: FirmwareFile -> bool, k: int, counts: set<nat>,
                    tags: bool)
    requires OrderedListing(init + [f], fits, counts, tags) && IsMaximum(init, fits, k)
    ensures var later := Versioned(f, fits) && CompareVersions(f.version, init[k].version) > 0;
            IsMaximum(init + [f], fits, if later then |init| else k)
  {
    var files := init + [f];
    assert files[k] == init[k] && files[|init|] == f;
    forall i | 0 <= i < |init| && Versioned(files[i], fits)
      ensures CompareVersions(files[i].version, files[k].version) <= 0
      ensures i < k ==> CompareVersions(files[i].version, files[k].version) < 0
    {
      assert files[i] == init[i];
    }
    if Versioned(f, fits) && CompareVersions(f.version, init[k].version) > 0 {
      Antisymmetric(f.version, f.version);
      Antisymmetric(f.version, init[k].version);
      forall i | 0 <= i < |init| && Versioned(files[i], fits)
        ensures CompareVersions(files[i].version, f.version) < 0
      {
        ClassTransitive(files[i].version, files[k].version, f.version, counts, tags);
      }
    }
  }
}
