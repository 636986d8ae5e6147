/**
 Version strings of internal/firmware/service.go: the tokenizer, the comparison, and where that comparison
 is an order.
 */
module FirmwareVersions {
  import opened Basics
  import opened Text

  predicate IsSeparator(c: char) { c == '.' || c == '-' || c == '_' }

  // TrimSpace, then at most one leading "v" and one leading "V".
  function Normalize(s: string): string { TrimPrefix(TrimPrefix(TrimSpace(s), "v"), "V") }

  // ---------- numbers ----------

  const MAX_INT: nat := 0x7FFF_FFFF_FFFF_FFFF

  // strconv.Atoi on a 64-bit platform.
  function Atoi(s: string): Option<int> {
    var digits := if s != "" && (s[0] == '+' || s[0] == '-') then s[1..] else s;
    if digits == "" || !AllDigits(digits) then None
    else if s[0] == '-' then (if Value(digits) <= MAX_INT + 1 then Some(0 - Value(digits)) else None)
    else if Value(digits) <= MAX_INT then Some(Value(digits)) else None
  }

  lemma AtoiDec(n: nat)
    requires n <= MAX_INT
    ensures Atoi(Dec(n)) == Some(n)
  {
    DecValue(n);
    assert IsDigit(Dec(n)[0]);
  }

  // ---------- tokens ----------

  function RunLength(s: string): (n: nat)
    ensures n <= |s| && (forall i :: 0 <= i < n ==> !IsSeparator(s[i])) && (n < |s| ==> IsSeparator(s[n]))
  {
    if s == "" || IsSeparator(s[0]) then 0 else 1 + RunLength(s[1..])
  }

  // The maximal runs without separators.
  function Fields(s: string): seq<string>
    decreases |s|
  {
    if s == "" then []
    else if IsSeparator(s[0]) then Fields(s[1..])
    else [s[..RunLength(s)]] + Fields(s[RunLength(s)..])
  }

  predicate Plain(s: string) { forall i :: 0 <= i < |s| ==> !IsSeparator(s[i]) }

  lemma {:induction false} RunLengthIs(s: string, rest: string)
    requires Plain(s) && (rest == "" || IsSeparator(rest[0]))
    ensures RunLength(s + rest) == |s|
    decreases |s|
  {
    if s == "" {
      assert s + rest == rest;
    } else {
      assert (s + rest)[1..] == s[1..] + rest;
      RunLengthIs(s[1..], rest);
    }
  }

  lemma FieldsRun(s: string, rest: string)
    requires s != "" && Plain(s) && (rest == "" || IsSeparator(rest[0]))
    ensures Fields(s + rest) == [s] + Fields(rest)
  {
    RunLengthIs(s, rest);
    assert (s + rest)[..|s|] == s && (s + rest)[|s|..] == rest;
  }

  lemma FieldsThen(s: string, sep: char, rest: string)
    requires s != "" && Plain(s) && IsSeparator(sep)
    ensures Fields(s + [sep] + rest) == [s] + Fields(rest)
  {
    FieldsRun(s, [sep] + rest);
    assert s + [sep] + rest == s + ([sep] + rest);
    assert ([sep] + rest)[1..] == rest;
  }

  lemma FieldsEnd(s: string)
    requires s != "" && Plain(s)
    ensures Fields(s) == [s]
  {
    FieldsRun(s, "");
    assert s + "" == s;
  }

  lemma RunEnds(current: string, v: string, i: nat)
    requires Plain(current) && i < |v| && IsSeparator(v[i])
    ensures Fields(current + v[i..]) == (if current == "" then [] else [current]) + Fields("" + v[i + 1..])
  {
    assert v[i..][1..] == v[i + 1..] == "" + v[i + 1..];
    assert Fields(v[i..]) == Fields(v[i + 1..]);
    if current == "" {
      assert current + v[i..] == v[i..];
    } else {
      FieldsRun(current, v[i..]);
    }
  }

  lemma RunGrows(current: string, v: string, i: nat)
    requires i < |v|
    ensures current + v[i..] == (current + [v[i]]) + v[i + 1..]
  {}

  // What is split off so far and what is still to come.
  lemma SplitStep(parts: seq<string>, current: string, v: string, i: nat)
    requires Plain(current) && i < |v|
    ensures var flushed := if current == "" then parts else parts + [current];
            parts + Fields(current + v[i..])
            == if IsSeparator(v[i]) then flushed + Fields("" + v[i + 1..])
               else parts + Fields((current + [v[i]]) + v[i + 1..])
  {
    if IsSeparator(v[i]) { RunEnds(current, v, i); } else { RunGrows(current, v, i); }
  }

  lemma AtEnd(current: string, v: string)
    requires Plain(current)
    ensures Fields(current + v[|v|..]) == if current == "" then [] else [current]
  {
    assert current + v[|v|..] == current;
    if current != "" { FieldsEnd(current); }
  }

  method SplitVersion(v: string) returns (parts: seq<string>)
    ensures parts == Fields(v)
  {
    parts := [];
    var current := "";
    assert "" + v[0..] == v;
    for i := 0 to |v|
      invariant Plain(current)
      invariant parts + Fields(current + v[i..]) == Fields(v)
    {
      SplitStep(parts, current, v, i);
      if IsSeparator(v[i]) {
        if |current| > 0 {
          parts := parts + [current];
          current := "";
        }
      } else {
        current := current + [v[i]];
      }
    }
    AtEnd(current, v);
    if |current| > 0 {
      parts := parts + [current];
    }
  }

  // ---------- comparison ----------

  predicate IsPrerelease(s: string) {
    var lower := Lower(s);
    || HasPrefix(lower, "rc") || HasPrefix(lower, "beta") || HasPrefix(lower, "alpha")
    || HasPrefix(lower, "dev") || HasPrefix(lower, "pre")
  }

  // strings.Compare
  function TextCompare(a: string, b: string): int {
    if a == "" then (if b == "" then 0 else -1)
    else if b == "" then 1
    else if a[0] != b[0] then (if a[0] < b[0] then -1 else 1)
    else TextCompare(a[1..], b[1..])
  }

  // The verdict of one pair of parts; 0 means: look at the next pair.
  function PartCompare(x: string, y: string): int {
    if Atoi(x).Some? && Atoi(y).Some? then Atoi(x).value - Atoi(y).value
    else
      var cmp := TextCompare(Lower(x), Lower(y));
      if cmp == 0 then 0
      else if IsPrerelease(x) && !IsPrerelease(y) then -1
      else if !IsPrerelease(x) && IsPrerelease(y) then 1
      else cmp
  }

  predicate AnyPrerelease(parts: seq<string>, from: nat) {
    exists i :: from <= i < |parts| && IsPrerelease(parts[i])
  }

  function CompareFrom(a: seq<string>, b: seq<string>, i: nat): int
    decreases |a| - i
  {
    if i < |a| && i < |b| then
      if PartCompare(a[i], b[i]) != 0 then PartCompare(a[i], b[i]) else CompareFrom(a, b, i + 1)
    else if |a| < |b| && AnyPrerelease(b, |a|) then 1
    else if |a| > |b| && AnyPrerelease(a, |b|) then -1
    else |a| - |b|
  }

  function CompareVersions(a: string, b: string): int {
    CompareFrom(Fields(Normalize(a)), Fields(Normalize(b)), 0)
  }

  lemma {:induction false} TextAntisymmetric(a: string, b: string)
    ensures TextCompare(a, b) == -TextCompare(b, a)
    decreases |a|
  {
    if a != "" && b != "" && a[0] == b[0] { TextAntisymmetric(a[1..], b[1..]); }
  }

  lemma {:induction false} PartsAntisymmetric(a: seq<string>, b: seq<string>, i: nat)
    ensures CompareFrom(a, b, i) == -CompareFrom(b, a, i)
    decreases |a| - i
  {
    if i < |a| && i < |b| {
      TextAntisymmetric(Lower(a[i]), Lower(b[i]));
      PartsAntisymmetric(a, b, i + 1);
    }
  }

  // On any two strings at all, swapping the arguments negates the verdict.
  lemma Antisymmetric(a: string, b: string)
    ensures CompareVersions(a, b) == -CompareVersions(b, a)
  {
    PartsAntisymmetric(Fields(Normalize(a)), Fields(Normalize(b)), 0);
  }

  // ---------- the domain on which it is an order ----------

  // n numbers, then at most one prerelease tag.
  predicate Regular(parts: seq<string>, n: nat) {
    && n <= |parts| <= n + 1
    && (forall i :: 0 <= i < n ==> Atoi(parts[i]).Some?)
    && (|parts| == n + 1 ==> IsPrerelease(parts[n]))
  }

  predicate RegularVersion(v: string, n: nat) { Regular(Fields(Normalize(v)), n) }

  // A release version has no tag.
  datatype Rank = Rank(numbers: seq<int>, tag: Option<string>)

  function RankOf(parts: seq<string>, n: nat): (rank: Rank)
    requires Regular(parts, n)
    ensures |rank.numbers| == n
  {
    Rank(seq(n, i requires 0 <= i < n => Atoi(parts[i]).value),
         if |parts| == n + 1 then Some(Lower(parts[n])) else None)
  }

  function VersionRank(v: string, n: nat): Rank
    requires RegularVersion(v, n)
  {
    RankOf(Fields(Normalize(v)), n)
  }

  // Prereleases come before their release, in alphabetical order.
  predicate TagLess(x: Option<string>, y: Option<string>) {
    x.Some? && (y.None? || TextCompare(x.value, y.value) < 0)
  }

  // The first number that differs decides, then the tag.
  predicate RankLess(x: Rank, y: Rank, i: nat := 0)
    requires |x.numbers| == |y.numbers|
    decreases |x.numbers| - i
  {
    if i >= |x.numbers| then TagLess(x.tag, y.tag)
    else x.numbers[i] < y.numbers[i] || (x.numbers[i] == y.numbers[i] && RankLess(x, y, i + 1))
  }

  lemma TagIsNoNumber(s: string)
    requires IsPrerelease(s)
    ensures Atoi(s).None?
  {
    assert s != "" && Lower(s)[0] == LowerChar(s[0]);
    assert !IsDigit(s[0]) && s[0] != '+' && s[0] != '-';
  }

  lemma {:induction false} TextEqual(a: string, b: string)
    ensures TextCompare(a, b) == 0 <==> a == b
    decreases |a|
  {
    if a != "" && b != "" {
      TextEqual(a[1..], b[1..]);
      assert a == [a[0]] + a[1..] && b == [b[0]] + b[1..];
    }
  }

  lemma {:induction false} TextTransitive(a: string, b: string, c: string)
    requires TextCompare(a, b) < 0 && TextCompare(b, c) < 0
    ensures TextCompare(a, c) < 0
    decreases |a|
  {
    if a != "" && b != "" && c != "" && a[0] == b[0] == c[0] { TextTransitive(a[1..], b[1..], c[1..]); }
  }

  lemma TagsDecide(a: seq<string>, b: seq<string>, n: nat)
    requires Regular(a, n) && Regular(b, n)
    ensures CompareFrom(a, b, n) < 0 <==> TagLess(RankOf(a, n).tag, RankOf(b, n).tag)
    ensures CompareFrom(a, b, n) > 0 <==> TagLess(RankOf(b, n).tag, RankOf(a, n).tag)
  {
    if |a| == n + 1 && |b| == n + 1 {
      TagIsNoNumber(a[n]);
      TagIsNoNumber(b[n]);
      TextAntisymmetric(Lower(a[n]), Lower(b[n]));
      assert CompareFrom(a, b, n + 1) == 0;
    }
  }

  // A verdict that looks at one number and else is the next verdict.
  predicate OneNumber(x: Rank, y: Rank, verdicts: seq<int>, j: nat)
    requires |verdicts| == |x.numbers| + 1 == |y.numbers| + 1
  {
    j < |x.numbers| ==>
      verdicts[j] == if x.numbers[j] == y.numbers[j] then verdicts[j + 1] else x.numbers[j] - y.numbers[j]
  }

  lemma {:induction false} VerdictsDecide(x: Rank, y: Rank, verdicts: seq<int>, i: nat)
    requires |verdicts| == |x.numbers| + 1 == |y.numbers| + 1 && i < |verdicts|
    requires forall j: nat :: OneNumber(x, y, verdicts, j)
    requires verdicts[|x.numbers|] < 0 <==> TagLess(x.tag, y.tag)
    requires verdicts[|x.numbers|] > 0 <==> TagLess(y.tag, x.tag)
    ensures verdicts[i] < 0 <==> RankLess(x, y, i)
    ensures verdicts[i] > 0 <==> RankLess(y, x, i)
    decreases |x.numbers| - i
  {
    assert OneNumber(x, y, verdicts, i);
    if i < |x.numbers| { VerdictsDecide(x, y, verdicts, i + 1); }
  }

  function Verdicts(a: seq<string>, b: seq<string>, n: nat): (verdicts: seq<int>)
    ensures |verdicts| == n + 1
  {
    seq(n + 1, j requires 0 <= j <= n => CompareFrom(a, b, j))
  }

  lemma NumbersDecide(a: seq<string>, b: seq<string>, n: nat, i: nat)
    requires Regular(a, n) && Regular(b, n)
    ensures OneNumber(RankOf(a, n), RankOf(b, n), Verdicts(a, b, n), i)
  {
  }

  // There the verdict is the order of the numbers, a release above its prereleases and tags in alphabetical order,
  // ignoring case.
  lemma RanksDecide(a: seq<string>, b: seq<string>, n: nat, i: nat)
    requires Regular(a, n) && Regular(b, n) && i <= n
    ensures CompareFrom(a, b, i) < 0 <==> RankLess(RankOf(a, n), RankOf(b, n), i)
    ensures CompareFrom(a, b, i) > 0 <==> RankLess(RankOf(b, n), RankOf(a, n), i)
  {
    forall j: nat { NumbersDecide(a, b, n, j); }
    TagsDecide(a, b, n);
    VerdictsDecide(RankOf(a, n), RankOf(b, n), Verdicts(a, b, n), i);
  }

  lemma VersionsDecide(a: string, b: string, n: nat)
    requires RegularVersion(a, n) && RegularVersion(b, n)
    ensures CompareVersions(a, b) < 0 <==> RankLess(VersionRank(a, n), VersionRank(b, n))
    ensures CompareVersions(a, b) > 0 <==> RankLess(VersionRank(b, n), VersionRank(a, n))
  {
    RanksDecide(Fields(Normalize(a)), Fields(Normalize(b)), n, 0);
  }

  // So it is a total preorder on the versions with n numbers; totality is Antisymmetric.
  lemma Transitive(a: string, b: string, c: string, n: nat)
    requires RegularVersion(a, n) && RegularVersion(b, n) && RegularVersion(c, n)
    requires CompareVersions(a, b) <= 0 && CompareVersions(b, c) <= 0
    ensures CompareVersions(a, c) <= 0
    ensures CompareVersions(a, b) < 0 || CompareVersions(b, c) < 0 ==> CompareVersions(a, c) < 0
  {
    VersionsDecide(a, b, n);
    VersionsDecide(b, c, n);
    VersionsDecide(a, c, n);
    RankOrder(VersionRank(a, n), VersionRank(b, n), VersionRank(c, n), 0);
  }

  lemma TagOrder(x: Option<string>, y: Option<string>, z: Option<string>)
    requires !TagLess(y, x) && !TagLess(z, y)
    ensures !TagLess(z, x)
    ensures TagLess(x, y) || TagLess(y, z) ==> TagLess(x, z)
  {
    if x.Some? && y.Some? && z.Some? {
      var p, q, r := x.value, y.value, z.value;
      TextAntisymmetric(p, q);
      TextAntisymmetric(q, r);
      TextAntisymmetric(p, r);
      TextEqual(p, q);
      TextEqual(q, r);
      if TextCompare(p, q) < 0 && TextCompare(q, r) < 0 { TextTransitive(p, q, r); }
    }
  }

  lemma {:induction false} RankOrder(x: Rank, y: Rank, z: Rank, i: nat)
    requires |x.numbers| == |y.numbers| == |z.numbers|
    requires !RankLess(y, x, i) && !RankLess(z, y, i)
    ensures !RankLess(z, x, i)
    ensures RankLess(x, y, i) || RankLess(y, z, i) ==> RankLess(x, z, i)
    decreases |x.numbers| - i
  {
    if i >= |x.numbers| {
      TagOrder(x.tag, y.tag, z.tag);
    } else if x.numbers[i] == y.numbers[i] == z.numbers[i] {
      RankOrder(x, y, z, i + 1);
    }
  }

  // ---------- three fields ----------

  lemma FieldsOfThree(x: string, y: string, z: string)
    requires x != "" && y != "" && z != "" && Plain(x) && Plain(y) && Plain(z)
    ensures Fields(x + "." + y + "." + z) == [x, y, z]
  {
    FieldsEnd(z);
    FieldsThen(y, '.', z);
    FieldsThen(x, '.', y + "." + z);
    assert x + "." + y + "." + z == x + "." + (y + "." + z);
  }

  // ---------- numbers without a tag ----------

  predicate Untagged(parts: seq<string>) { forall i :: 0 <= i < |parts| ==> Atoi(parts[i]).Some? }

  predicate UntaggedVersion(v: string) { Untagged(Fields(Normalize(v))) }

  // The verdict without the rule about tags.
  lemma UntaggedStep(a: seq<string>, b: seq<string>, i: nat)
    requires Untagged(a) && Untagged(b)
    ensures CompareFrom(a, b, i)
         == if i < |a| && i < |b| then
              (var x, y := Atoi(a[i]).value, Atoi(b[i]).value; if x == y then CompareFrom(a, b, i + 1) else x - y)
            else |a| - |b|
  {
    forall j | 0 <= j < |a| ensures !IsPrerelease(a[j]) { if IsPrerelease(a[j]) { TagIsNoNumber(a[j]); } }
    forall j | 0 <= j < |b| ensures !IsPrerelease(b[j]) { if IsPrerelease(b[j]) { TagIsNoNumber(b[j]); } }
  }

  lemma {:induction false} UntaggedOrder(a: seq<string>, b: seq<string>, c: seq<string>, i: nat)
    requires Untagged(a) && Untagged(b) && Untagged(c)
    requires CompareFrom(a, b, i) <= 0 && CompareFrom(b, c, i) <= 0
    ensures CompareFrom(a, c, i) <= 0
    ensures CompareFrom(a, b, i) < 0 || CompareFrom(b, c, i) < 0 ==> CompareFrom(a, c, i) < 0
    decreases |a| - i
  {
    UntaggedStep(a, b, i);
    UntaggedStep(b, c, i);
    UntaggedStep(a, c, i);
    if i < |a| && i < |b| && i < |c| && Atoi(a[i]) == Atoi(b[i]) == Atoi(c[i]) { UntaggedOrder(a, b, c, i + 1); }
  }

  // Without tags it is a total preorder whatever the counts of numbers.
  lemma UntaggedTransitive(a: string, b: string, c: string)
    requires UntaggedVersion(a) && UntaggedVersion(b) && UntaggedVersion(c)
    requires CompareVersions(a, b) <= 0 && CompareVersions(b, c) <= 0
    ensures CompareVersions(a, c) <= 0
    ensures CompareVersions(a, b) < 0 || CompareVersions(b, c) < 0 ==> CompareVersions(a, c) < 0
  {
    UntaggedOrder(Fields(Normalize(a)), Fields(Normalize(b)), Fields(Normalize(c)), 0);
  }

  // ---------- outside it ----------

  function Decs(numbers: seq<nat>): (parts: seq<string>)
    ensures |parts| == |numbers|
  {
    seq(|numbers|, i requires 0 <= i < |numbers| => Dec(numbers[i]))
  }

  function Joined(numbers: seq<nat>): string {
    if numbers == [] then ""
    else if |numbers| == 1 then Dec(numbers[0])
    else Dec(numbers[0]) + "." + Joined(numbers[1..])
  }

  // Numbers with dots between them, and a tag after a hyphen.
  function VersionText(numbers: seq<nat>, tag: Option<string>): string {
    Joined(numbers) + if tag.Some? then "-" + tag.value else ""
  }

  predicate TagText(tag: string) { IsPrerelease(tag) && Plain(tag) && tag != "" && !IsSpace(tag[|tag| - 1]) }

  lemma DecIsPlain(n: nat)
    ensures Plain(Dec(n))
  {
    forall i | 0 <= i < |Dec(n)| ensures !IsSeparator(Dec(n)[i]) { assert IsDigit(Dec(n)[i]); }
  }

  lemma FieldsNext(first: string, tail: string, parts: seq<string>)
    requires first != "" && Plain(first) && Fields(tail) == parts
    ensures Fields(first + ['.'] + tail) == [first] + parts
  {
    FieldsThen(first, '.', tail);
  }

  lemma JoinedOne(n: nat, rest: string)
    requires rest == "" || IsSeparator(rest[0])
    ensures Fields(Joined([n]) + rest) == Decs([n]) + Fields(rest)
  {
    DecIsPlain(n);
    FieldsRun(Dec(n), rest);
    assert Decs([n]) == [Dec(n)] && Joined([n]) == Dec(n);
  }

  lemma JoinedNext(numbers: seq<nat>, rest: string, parts: seq<string>)
    requires |numbers| > 1 && Fields(Joined(numbers[1..]) + rest) == parts
    ensures Fields(Joined(numbers) + rest) == [Dec(numbers[0])] + parts
  {
    DecIsPlain(numbers[0]);
    JoinedSplit(numbers, rest);
    FieldsNext(Dec(numbers[0]), Joined(numbers[1..]) + rest, parts);
  }

  lemma {:induction false} FieldsJoined(numbers: seq<nat>, rest: string)
    requires numbers != [] && (rest == "" || IsSeparator(rest[0]))
    ensures Fields(Joined(numbers) + rest) == Decs(numbers) + Fields(rest)
    decreases |numbers|
  {
    if |numbers| == 1 {
      assert numbers == [numbers[0]];
      JoinedOne(numbers[0], rest);
    } else {
      FieldsJoined(numbers[1..], rest);
      JoinedNext(numbers, rest, Fields(Joined(numbers[1..]) + rest));
      DecsSplit(numbers, Fields(rest));
    }
  }

  lemma DecsSplit(numbers: seq<nat>, parts: seq<string>)
    requires numbers != []
    ensures [Dec(numbers[0])] + (Decs(numbers[1..]) + parts) == Decs(numbers) + parts
  {
    assert Decs(numbers) == [Dec(numbers[0])] + Decs(numbers[1..]);
  }

  lemma JoinedSplit(numbers: seq<nat>, rest: string)
    requires |numbers| > 1
    ensures Joined(numbers) + rest == Dec(numbers[0]) + ['.'] + (Joined(numbers[1..]) + rest)
  {}

  lemma {:induction false} JoinedEnds(numbers: seq<nat>)
    requires numbers != []
    ensures Joined(numbers) != "" && IsDigit(Joined(numbers)[0]) && IsDigit(Joined(numbers)[|Joined(numbers)| - 1])
    decreases |numbers|
  {
    if |numbers| > 1 { JoinedEnds(numbers[1..]); }
  }

  lemma NoPrefix(v: string)
    requires v != "" && IsDigit(v[0]) && !IsSpace(v[|v| - 1])
    ensures Normalize(v) == v
  {
    OtherStart(v, "v");
    OtherStart(v, "V");
  }

  function PartList(numbers: seq<nat>, tag: Option<string>): seq<string> {
    if tag.Some? then Decs(numbers) + [tag.value] else Decs(numbers)
  }

  predicate TagFits(numbers: seq<nat>, tag: Option<string>) { tag.Some? ==> numbers != [] && TagText(tag.value) }

  lemma PartsOf(numbers: seq<nat>, tag: Option<string>)
    requires TagFits(numbers, tag)
    ensures Fields(Normalize(VersionText(numbers, tag))) == PartList(numbers, tag)
  {
    var v := VersionText(numbers, tag);
    if numbers != [] {
      JoinedEnds(numbers);
      NoPrefix(v);
      if tag.Some? {
        FieldsJoined(numbers, "-" + tag.value);
        assert ("-" + tag.value)[1..] == tag.value;
        FieldsEnd(tag.value);
      } else {
        FieldsJoined(numbers, "");
      }
    }
  }

  lemma VerdictOf(x: seq<nat>, t: Option<string>, y: seq<nat>, u: Option<string>)
    requires TagFits(x, t) && TagFits(y, u)
    ensures CompareVersions(VersionText(x, t), VersionText(y, u)) == CompareFrom(PartList(x, t), PartList(y, u), 0)
  {
    PartsOf(x, t);
    PartsOf(y, u);
  }

  lemma PartItself(x: string)
    ensures PartCompare(x, x) == 0
  {
    TextEqual(Lower(x), Lower(x));
  }

  lemma {:induction false} CommonStart(a: seq<string>, b: seq<string>, i: nat, m: nat)
    requires i <= m <= |a| && m <= |b|
    requires forall j :: i <= j < m ==> a[j] == b[j]
    ensures CompareFrom(a, b, i) == CompareFrom(a, b, m)
    decreases m - i
  {
    if i < m {
      PartItself(a[i]);
      CommonStart(a, b, i + 1, m);
    }
  }

  lemma SameNumbers(numbers: seq<nat>, x: seq<string>, y: seq<string>, m: nat)
    requires m <= |numbers| && m <= |x| && m <= |y|
    requires forall i :: 0 <= i < m ==> x[i] == Dec(numbers[i]) && y[i] == Dec(numbers[i])
    ensures CompareFrom(x, y, 0) == CompareFrom(x, y, m)
  {
    CommonStart(x, y, 0, m);
  }

  // A tagged version is below every proper prefix of its numbers, ...
  lemma TaggedBelowPrefix(numbers: seq<nat>, tag: string, m: nat)
    requires m <= |numbers| && IsPrerelease(tag)
    ensures CompareFrom(Decs(numbers) + [tag], Decs(numbers[..m]), 0) < 0
  {
    var x, p := Decs(numbers) + [tag], Decs(numbers[..m]);
    SameNumbers(numbers, x, p, m);
    assert x[|numbers|] == tag && AnyPrerelease(x, m);
  }

  // ... such a prefix is below every version that continues it with numbers, ...
  lemma PrefixBelowLonger(numbers: seq<nat>, m: nat)
    requires m < |numbers|
    ensures CompareFrom(Decs(numbers[..m]), Decs(numbers), 0) < 0
  {
    var p, c := Decs(numbers[..m]), Decs(numbers);
    SameNumbers(numbers, p, c, m);
    forall i | m <= i < |c| ensures !IsPrerelease(c[i]) { DecIsLower(numbers[i]); }
  }

  lemma DecsCompare(m: nat, n: nat)
    requires m <= MAX_INT && n <= MAX_INT
    ensures PartCompare(Dec(m), Dec(n)) == m - n
  {
    AtoiDec(m);
    AtoiDec(n);
  }

  // ... and a smaller last number is below the tagged version.
  lemma LowerBelowTagged(start: seq<nat>, low: nat, high: nat, tag: string)
    requires low < high <= MAX_INT
    ensures CompareFrom(Decs(start + [low]), Decs(start + [high]) + [tag], 0) < 0
  {
    var c, x, n := Decs(start + [low]), Decs(start + [high]) + [tag], |start|;
    SameNumbers(start, c, x, n);
    assert c[n] == Dec(low) && x[n] == Dec(high);
    DecsCompare(low, high);
  }

  // So a tag makes a cycle between versions with different counts of numbers, whatever the numbers.
  lemma TaggedCycle(start: seq<nat>, low: nat, high: nat, tag: string, m: nat)
    requires low < high <= MAX_INT && m <= |start| && TagText(tag)
    ensures var tagged, prefix := VersionText(start + [high], Some(tag)), VersionText(start[..m], None);
            var lower := VersionText(start + [low], None);
            && CompareVersions(tagged, prefix) < 0 && CompareVersions(prefix, lower) < 0
            && CompareVersions(lower, tagged) < 0
  {
    TaggedBelowPrefix(start + [high], tag, m);
    PrefixBelowLonger(start + [low], m);
    LowerBelowTagged(start, low, high, tag);
    assert (start + [high])[..m] == start[..m] == (start + [low])[..m];
    VerdictOf(start + [high], Some(tag), start[..m], None);
    VerdictOf(start[..m], None, start + [low], None);
    VerdictOf(start + [low], None, start + [high], Some(tag));
  }

  lemma DecIsLower(n: nat)
    ensures Lower(Dec(n)) == Dec(n) && IsDigit(Dec(n)[0]) && !IsPrerelease(Dec(n))
  {
    forall i | 0 <= i < |Dec(n)| ensures LowerChar(Dec(n)[i]) == Dec(n)[i] { assert IsDigit(Dec(n)[i]); }
    assert Lower(Dec(n)) == Dec(n);
    OtherStart(Dec(n), "rc");
    OtherStart(Dec(n), "beta");
    OtherStart(Dec(n), "alpha");
    OtherStart(Dec(n), "dev");
    OtherStart(Dec(n), "pre");
  }

  // ---------- exactly which classes are ordered ----------

  // Versions with so many numbers each, with or without tags.
  predicate InClass(v: string, counts: set<nat>, tags: bool) {
    exists n :: n in counts && RegularVersion(v, n) && (tags || |Fields(Normalize(v))| == n)
  }

  ghost predicate OrderedClass(counts: set<nat>, tags: bool) {
    forall a, b, c ::
      InClass(a, counts, tags) && InClass(b, counts, tags) && InClass(c, counts, tags)
      && CompareVersions(a, b) <= 0 && CompareVersions(b, c) <= 0
      ==> CompareVersions(a, c) <= 0
  }

  lemma NotOrdered(a: string, b: string, c: string, counts: set<nat>, tags: bool)
    requires InClass(a, counts, tags) && InClass(b, counts, tags) && InClass(c, counts, tags)
    requires CompareVersions(a, b) < 0 && CompareVersions(b, c) < 0 && CompareVersions(c, a) < 0
    ensures !OrderedClass(counts, tags)
  {
    Antisymmetric(a, c);
  }

  lemma TextInClass(numbers: seq<nat>, tag: Option<string>, counts: set<nat>, tags: bool)
    requires |numbers| in counts && TagFits(numbers, tag) && (tag.Some? ==> tags)
    requires forall i :: 0 <= i < |numbers| ==> numbers[i] <= MAX_INT
    ensures InClass(VersionText(numbers, tag), counts, tags)
  {
    PartsOf(numbers, tag);
    forall i | 0 <= i < |numbers| ensures Atoi(Decs(numbers)[i]).Some? { AtoiDec(numbers[i]); }
    assert RegularVersion(VersionText(numbers, tag), |numbers|);
  }

  function Zeros(n: nat): seq<nat> { seq(n, _ => 0) }

  lemma RcIsTag()
    ensures TagText("rc")
  {
    assert Lower("rc") == "rc";
  }

  lemma MixedTagsCycle(counts: set<nat>, start: seq<nat>, tag: string, m: nat)
    requires m in counts && |start| + 1 in counts && m <= |start| && TagText(tag)
    requires forall i :: 0 <= i < |start| ==> start[i] <= MAX_INT
    ensures !OrderedClass(counts, true)
  {
    var high, low := start + [1], start + [0];
    TaggedCycle(start, 0, 1, tag, m);
    TextInClass(high, Some(tag), counts, true);
    TextInClass(start[..m], None, counts, true);
    TextInClass(low, None, counts, true);
    NotOrdered(VersionText(high, Some(tag)), VersionText(start[..m], None), VersionText(low, None), counts, true);
  }

  // A class is ordered if and only if its versions have one count of numbers, or no tags.
  lemma OrderedExact(counts: set<nat>, tags: bool)
    ensures OrderedClass(counts, tags) <==> !tags || forall m, n :: m in counts && n in counts ==> m == n
  {
    if !tags || forall m, n :: m in counts && n in counts ==> m == n {
      forall a, b, c | InClass(a, counts, tags) && InClass(b, counts, tags) && InClass(c, counts, tags)
                       && CompareVersions(a, b) <= 0 && CompareVersions(b, c) <= 0
        ensures CompareVersions(a, c) <= 0
      {
        ClassTransitive(a, b, c, counts, tags);
      }
    } else {
      var m, n :| m in counts && n in counts && m != n;
      RcIsTag();
      MixedTagsCycle(counts, Zeros(Max(m, n) - 1), "rc", Min(m, n));
    }
  }

  lemma ClassTransitive(a: string, b: string, c: string, counts: set<nat>, tags: bool)
    requires !tags || forall m, n :: m in counts && n in counts ==> m == n
    requires InClass(a, counts, tags) && InClass(b, counts, tags) && InClass(c, counts, tags)
    requires CompareVersions(a, b) <= 0 && CompareVersions(b, c) <= 0
    ensures CompareVersions(a, c) <= 0
    ensures CompareVersions(a, b) < 0 || CompareVersions(b, c) < 0 ==> CompareVersions(a, c) < 0
  {
    if tags {
      var n :| n in counts && RegularVersion(a, n);
      Transitive(a, b, c, n);
    } else {
      UntaggedTransitive(a, b, c);
    }
  }

  // ---------- what decides, piece by piece ----------

  // The letter, small or capital.
  predicate SameLetter(c: char, p: char)
    requires 'a' <= p <= 'z'
  {
    c == p || c == p - 'a' + 'A'
  }

  predicate SmallLetters(p: string) { forall i :: 0 <= i < |p| ==> 'a' <= p[i] <= 'z' }

  // The text begins with that word, in small or capital letters.
  predicate Begins(s: string, p: string)
    requires SmallLetters(p)
  {
    |p| <= |s| && forall i :: 0 <= i < |p| ==> SameLetter(s[i], p[i])
  }

  lemma PrefixFold(s: string, p: string)
    requires SmallLetters(p)
    ensures HasPrefix(Lower(s), p) <==> Begins(s, p)
  {
    if |p| <= |s| {
      assert forall i :: 0 <= i < |p| ==> Lower(s)[..|p|][i] == LowerChar(s[i]);
    }
  }

  // A part is a prerelease tag exactly if it begins with one of these words, in small or capital letters.
  lemma PrereleaseExact(s: string)
    ensures IsPrerelease(s) <==>
              || Begins(s, "rc") || Begins(s, "beta") || Begins(s, "alpha") || Begins(s, "dev") || Begins(s, "pre")
  {
    PrefixFold(s, "rc");
    PrefixFold(s, "beta");
    PrefixFold(s, "alpha");
    PrefixFold(s, "dev");
    PrefixFold(s, "pre");
  }

  // Where two texts first differ: at a smaller character, or because one ends.
  predicate FirstDifference(a: string, b: string, n: nat) {
    && n <= |a| && n <= |b| && a[..n] == b[..n]
    && (if n < |a| then n < |b| && a[n] < b[n] else n < |b|)
  }

  lemma {:induction false} TextExact(a: string, b: string)
    ensures TextCompare(a, b) < 0 <==> exists n: nat :: FirstDifference(a, b, n)
    decreases |a|
  {
    if a != "" && b != "" && a[0] == b[0] {
      TextExact(a[1..], b[1..]);
      if n: nat :| FirstDifference(a, b, n) { DropFirst(a, b, n); }
      if n: nat :| FirstDifference(a[1..], b[1..], n) { AddFirst(a, b, n); }
    } else {
      assert TextCompare(a, b) < 0 <==> FirstDifference(a, b, 0);
      if n: nat :| FirstDifference(a, b, n) { SameStarts(a, b, n); }
    }
  }

  lemma SameStarts(a: string, b: string, n: nat)
    requires FirstDifference(a, b, n)
    ensures n > 0 ==> a != "" && b != "" && a[0] == b[0]
  {
    if n > 0 { assert a[..n][0] == b[..n][0]; }
  }

  lemma DropFirst(a: string, b: string, n: nat)
    requires a != "" && b != "" && a[0] == b[0] && FirstDifference(a, b, n)
    ensures n > 0 && FirstDifference(a[1..], b[1..], n - 1)
  {
    assert a[1..][..n - 1] == a[..n][1..] && b[1..][..n - 1] == b[..n][1..];
  }

  lemma AddFirst(a: string, b: string, n: nat)
    requires a != "" && b != "" && a[0] == b[0] && FirstDifference(a[1..], b[1..], n)
    ensures FirstDifference(a, b, n + 1)
  {
    assert a[..n + 1] == [a[0]] + a[1..][..n] && b[..n + 1] == [b[0]] + b[1..][..n];
  }

  // Parts that are not both numbers: equal if they are but for case, else a tag is below anything else, and otherwise
  // the texts decide.
  lemma PartsDecide(x: string, y: string)
    requires Atoi(x).None? || Atoi(y).None?
    ensures PartCompare(x, y) == 0 <==> EqualFold(x, y)
    ensures PartCompare(x, y) < 0 <==>
              && !EqualFold(x, y)
              && (if IsPrerelease(x) != IsPrerelease(y) then IsPrerelease(x)
                  else exists n: nat :: FirstDifference(Lower(x), Lower(y), n))
  {
    TextEqual(Lower(x), Lower(y));
    TextExact(Lower(x), Lower(y));
  }

  // The first pair of parts that differs decides, ...
  lemma FirstPartDecides(a: seq<string>, b: seq<string>, m: nat)
    requires m < |a| && m < |b| && a[..m] == b[..m] && PartCompare(a[m], b[m]) != 0
    ensures CompareFrom(a, b, 0) == PartCompare(a[m], b[m])
  {
    SameStart(a, b, m);
  }

  // ... and if one list of parts continues the other, it is above it exactly if what it adds has no tag.
  lemma LengthDecides(a: seq<string>, m: nat)
    requires m < |a|
    ensures CompareFrom(a, a[..m], 0) != 0
    ensures CompareFrom(a, a[..m], 0) < 0 <==> exists i :: m <= i < |a| && IsPrerelease(a[i])
  {
    SameStart(a, a[..m], m);
    assert AnyPrerelease(a, m) <==> exists i :: m <= i < |a| && IsPrerelease(a[i]);
  }

  lemma SameStart(a: seq<string>, b: seq<string>, m: nat)
    requires m <= |a| && m <= |b| && a[..m] == b[..m]
    ensures CompareFrom(a, b, 0) == CompareFrom(a, b, m)
  {
    forall j | 0 <= j < m ensures a[j] == b[j] { assert a[..m][j] == b[..m][j]; }
    CommonStart(a, b, 0, m);
  }

  // Dots, hyphens and underscores separate parts, and nothing else does.
  lemma SeparatorsExact(x: string, c: char, y: string)
    requires x != "" && y != ""
    requires forall i :: 0 <= i < |x| ==> x[i] !in ".-_"
    requires forall i :: 0 <= i < |y| ==> y[i] !in ".-_"
    ensures Fields(x + [c] + y) == if c in ".-_" then [x, y] else [x + [c] + y]
  {
    assert ".-_"[0] in ".-_" && ".-_"[1] in ".-_" && ".-_"[2] in ".-_";
    if c in ".-_" {
      FieldsThen(x, c, y);
      FieldsEnd(y);
    } else {
      FieldsEnd(x + [c] + y);
    }
  }

  predicate Blank(s: string) { forall i :: 0 <= i < |s| ==> s[i] in " \t\n\r" }

  lemma {:induction false} TrimsLeft(s: string, rest: string)
    requires Blank(s) && (rest == "" || !IsSpace(rest[0]))
    ensures TrimLeft(s + rest) == rest
    decreases |s|
  {
    if s == "" {
      assert s + rest == rest;
    } else {
      assert IsSpace(s[0]) && (s + rest)[1..] == s[1..] + rest;
      TrimsLeft(s[1..], rest);
    }
  }

  lemma {:induction false} TrimsRight(start: string, s: string)
    requires Blank(s) && (start == "" || !IsSpace(start[|start| - 1]))
    ensures TrimRight(start + s) == start
    decreases |s|
  {
    if s == "" {
      assert start + s == start;
    } else {
      assert IsSpace(s[|s| - 1]) && (start + s)[..|start + s| - 1] == start + s[..|s| - 1];
      TrimsRight(start, s[..|s| - 1]);
    }
  }

  // Spaces around a version do not matter, nor one "v", "V" or "vV" before its first digit.
  lemma NormalizeExact(before: string, prefix: string, v: string, after: string)
    requires Blank(before) && Blank(after) && (prefix == "" || prefix == "v" || prefix == "V" || prefix == "vV")
    requires v != "" && IsDigit(v[0]) && !IsSpace(v[|v| - 1])
    ensures Normalize(before + (prefix + v) + after) == v
  {
    var text := prefix + v;
    assert before + text + after == before + (text + after);
    TrimsLeft(before, text + after);
    TrimsRight(text, after);
    WithoutV(prefix, v);
  }

  lemma WithoutV(prefix: string, v: string)
    requires prefix == "" || prefix == "v" || prefix == "V" || prefix == "vV"
    requires v != "" && IsDigit(v[0])
    ensures TrimPrefix(TrimPrefix(prefix + v, "v"), "V") == v
  {
    OtherStart(v, "v");
    OtherStart(v, "V");
    if prefix == "" {
      assert prefix + v == v;
    } else if prefix == "V" {
      OtherStart(prefix + v, "v");
      assert (prefix + v)[..1] == "V" && (prefix + v)[1..] == v;
    } else if prefix == "v" {
      assert (prefix + v)[..1] == "v" && (prefix + v)[1..] == v;
    } else {
      assert (prefix + v)[..1] == "v" && (prefix + v)[1..] == "V" + v;
      assert ("V" + v)[..1] == "V" && ("V" + v)[1..] == v;
    }
  }

  // A sign or leading zeros do not keep a part from being a number.
  lemma SignedNumbers(n: nat)
    requires n <= MAX_INT
    ensures Atoi("-" + Dec(n)) == Some(0 - n) && Atoi("+" + Dec(n)) == Some(n) && Atoi("0" + Dec(n)) == Some(n)
  {
    assert ("-" + Dec(n))[1..] == Dec(n) && ("+" + Dec(n))[1..] == Dec(n);
    DecValue(n);
    LeadingZero(Dec(n));
    assert ("0" + Dec(n))[0] == '0';
  }

  lemma {:induction false} LeadingZero(s: string)
    requires AllDigits(s)
    ensures AllDigits("0" + s) && Value("0" + s) == Value(s)
    decreases |s|
  {
    var t := "0" + s;
    if s == "" {
      assert t == "0" && t[..0] == "";
    } else {
      LeadingZero(s[..|s| - 1]);
      assert t[..|t| - 1] == "0" + s[..|s| - 1] && t[|t| - 1] == s[|s| - 1];
    }
  }
}
