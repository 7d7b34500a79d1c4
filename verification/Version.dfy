/** Actor versions: three or four 32-bit numbers, printed with dots and parsed back. */
module Version {
  import opened Common

  type int32 = x: int | -0x8000_0000 <= x < 0x8000_0000

  // ---- Decimal numbers, as strconv prints and parses them ----

  function Digit(d: nat): char
    requires d < 10
  {
    '0' + d as char
  }

  predicate IsDigit(c: char) {
    '0' <= c <= '9'
  }

  ghost predicate IsNumeral(s: string) {
    s != "" && forall i :: 0 <= i < |s| ==> IsDigit(s[i])
  }

  predicate AllDigits(s: string) {
    forall i :: 0 <= i < |s| ==> IsDigit(s[i])
  }

  function Natural(n: nat): string {
    if n < 10 then [Digit(n)] else Natural(n / 10) + [Digit(n % 10)]
  }

  /** The number a string of digits denotes, most significant digit first. */
  function Denotes(s: string): nat
    requires AllDigits(s)
  {
    if s == "" then 0 else 10 * Denotes(s[..|s| - 1]) + (s[|s| - 1] - '0') as nat
  }

  function FormatInt(v: int): string {
    if v < 0 then "-" + Natural(0 - v) else Natural(v)
  }

  /** The digits of a signed numeral. */
  function Unsigned(s: string): string {
    if s != "" && (s[0] == '-' || s[0] == '+') then s[1..] else s
  }

  /** `ParseInt(s, 10, 32)`: an optional sign, at least one digit, and a value in range. */
  function ParseInt(s: string): Option<int32> {
    var u := Unsigned(s);
    if u == "" || !AllDigits(u) then None
    else
      var v := if s[0] == '-' then 0 - Denotes(u) else Denotes(u);
      if -0x8000_0000 <= v < 0x8000_0000 then Some(v) else None
  }

  lemma {:induction false} NaturalDenotes(n: nat)
    ensures IsNumeral(Natural(n)) && AllDigits(Natural(n)) && Denotes(Natural(n)) == n
  {
    if n < 10 {
      assert Natural(n)[..0] == "";
    } else {
      NaturalDenotes(n / 10);
      var s := Natural(n);
      assert s[..|s| - 1] == Natural(n / 10);
    }
  }

  lemma {:induction false} NaturalHasNoPadding(n: nat)
    ensures Natural(n)[0] == '0' ==> n == 0 && |Natural(n)| == 1
  {
    if n < 10 {
    } else {
      NaturalHasNoPadding(n / 10);
      NaturalDenotes(n / 10);
    }
  }

  function Abs(v: int): nat {
    if v < 0 then 0 - v else v
  }

  lemma FormatDigits(v: int)
    ensures AllDigits(Natural(Abs(v))) && Natural(Abs(v)) != "" && Denotes(Natural(Abs(v))) == Abs(v)
    ensures Unsigned(FormatInt(v)) == Natural(Abs(v))
    ensures FormatInt(v)[0] == '-' <==> v < 0
  {
    var digits := Natural(Abs(v));
    NaturalDenotes(Abs(v));
    assert IsDigit(digits[0]);
    assert ("-" + digits)[1..] == digits;
  }

  /** A number is printed without a plus sign or leading zeros, with a minus sign exactly if it is
      negative, and differently from every other number. */
  lemma FormatIsCanonical(v: int, w: int)
    ensures var s := FormatInt(v);
            && (s[0] == '-' <==> v < 0)
            && IsNumeral(if v < 0 then s[1..] else s)
            && (s[0] == '0' ==> s == "0") && (v < 0 ==> s[1] != '0')
    ensures FormatInt(v) == FormatInt(w) ==> v == w
  {
    NaturalHasNoPadding(Abs(v));
    FormatDigits(v);
    FormatDigits(w);
  }

  lemma FormatParses(v: int32)
    ensures ParseInt(FormatInt(v)) == Some(v)
    ensures '.' !in FormatInt(v)
  {
    FormatDigits(v);
    var digits := Natural(Abs(v));
    assert v < 0 ==> FormatInt(v) == "-" + digits;
  }

  // ---- Splitting and joining on dots ----

  function Join(parts: seq<string>): string {
    if parts == [] then ""
    else if |parts| == 1 then parts[0]
    else Join(parts[..|parts| - 1]) + "." + parts[|parts| - 1]
  }

  /** `strings.Split(s, ".")`: always at least one part. */
  function Split(s: string): (parts: seq<string>)
    ensures |parts| >= 1
  {
    if s == "" then [""]
    else
      var before := Split(s[..|s| - 1]);
      if s[|s| - 1] == '.' then before + [""]
      else before[..|before| - 1] + [before[|before| - 1] + [s[|s| - 1]]]
  }

  lemma {:induction false} SplitAppendsPart(s: string, p: string)
    requires '.' !in p
    ensures Split(s + "." + p) == Split(s) + [p]
  {
    var t := s + "." + p;
    if p == "" {
      assert t[..|t| - 1] == s;
    } else {
      var q := p[..|p| - 1];
      assert t[..|t| - 1] == s + "." + q;
      SplitAppendsPart(s, q);
      assert t[|t| - 1] == p[|p| - 1] && p == q + [p[|p| - 1]];
    }
  }

  lemma {:induction false} SplitSinglePart(p: string)
    requires '.' !in p
    ensures Split(p) == [p]
  {
    if p == "" {
    } else {
      SplitSinglePart(p[..|p| - 1]);
      assert p == p[..|p| - 1] + [p[|p| - 1]];
    }
  }

  lemma {:induction false} SplitJoin(parts: seq<string>)
    requires parts != [] && forall i :: 0 <= i < |parts| ==> '.' !in parts[i]
    ensures Split(Join(parts)) == parts
  {
    var n := |parts| - 1;
    var init, last := parts[..n], parts[n];
    assert parts == init + [last];
    if n == 0 {
      SplitSinglePart(last);
    } else {
      SplitJoin(init);
      SplitAppendsPart(Join(init), last);
    }
  }

  // ---- The two operations ----

  function Formatted(version: seq<int32>): (parts: seq<string>)
    ensures |parts| == |version|
  {
    seq(|version|, i requires 0 <= i < |version| => FormatInt(version[i]))
  }

  function Serialize(version: seq<int32>): Option<string> {
    if version == [] then None else Some(Join(Formatted(version)))
  }

  ghost predicate Parseable(parts: seq<string>) {
    3 <= |parts| <= 4 && forall i :: 0 <= i < |parts| ==> ParseInt(parts[i]).Some?
  }

  ghost function Deserialize(version: Option<string>): Option<seq<int32>> {
    if version.None? || !Parseable(Split(version.value)) then None
    else
      var parts := Split(version.value);
      Some(seq(|parts|, i requires 0 <= i < |parts| => ParseInt(parts[i]).value))
  }

  method SerializeActorVersion(version: seq<int32>) returns (r: Option<string>)
    ensures r == Serialize(version)
  {
    if |version| == 0 {
      return None;
    }
    var builder := "";
    for i := 0 to |version|
      invariant builder == Join(Formatted(version[..i]))
    {
      assert Formatted(version[..i + 1]) == Formatted(version[..i]) + [FormatInt(version[i])];
      if i > 0 {
        builder := builder + ".";
      }
      builder := builder + FormatInt(version[i]);
    }
    assert version[..|version|] == version;
    return Some(builder);
  }

  method DeserializeActorVersion(version: Option<string>) returns (r: Option<seq<int32>>)
    ensures r == Deserialize(version)
  {
    if version.None? {
      return None;
    }
    var parts := Split(version.value);
    if |parts| < 3 || |parts| > 4 {
      return None;
    }
    var result := new int32[|parts|];
    for i := 0 to |parts|
      invariant forall j :: 0 <= j < i ==> ParseInt(parts[j]) == Some(result[j])
    {
      var num := ParseInt(parts[i]);
      if num.None? {
        return None;
      }
      result[i] := num.value;
    }
    assert result[..] == Deserialize(version).value;
    return Some(result[..]);
  }

  // ---- Properties ----

  lemma FormattedParses(version: seq<int32>)
    ensures forall i :: 0 <= i < |version| ==>
              ParseInt(Formatted(version)[i]) == Some(version[i]) && '.' !in Formatted(version)[i]
  {
    forall i | 0 <= i < |version|
      ensures ParseInt(Formatted(version)[i]) == Some(version[i]) && '.' !in Formatted(version)[i]
    {
      FormatParses(version[i]);
    }
  }

  lemma PartsParseBack(version: seq<int32>, s: string)
    requires Split(s) == Formatted(version)
    ensures Deserialize(Some(s)) == if 3 <= |version| <= 4 then Some(version) else None
  {
    FormattedParses(version);
    if 3 <= |version| <= 4 {
      assert Deserialize(Some(s)).value == version;
    }
  }

  /** Printing then parsing gives the list back exactly when it has three or four elements,
      and is rejected otherwise. */
  lemma RoundTrip(version: seq<int32>)
    ensures Deserialize(Serialize(version)) == if 3 <= |version| <= 4 then Some(version) else None
  {
    if version != [] {
      FormattedParses(version);
      SplitJoin(Formatted(version));
      PartsParseBack(version, Join(Formatted(version)));
    }
  }

  /** Every accepted string has a canonical form that parses to the same list,
      and two accepted strings that parse alike have the same canonical form. */
  lemma CanonicalForm(s: string, t: string)
    requires Deserialize(Some(s)).Some? && Deserialize(Some(t)).Some?
    ensures Deserialize(Serialize(Deserialize(Some(s)).value)) == Deserialize(Some(s))
    ensures Serialize(Deserialize(Some(s)).value) == Serialize(Deserialize(Some(t)).value)
            <==> Deserialize(Some(s)) == Deserialize(Some(t))
  {
    RoundTrip(Deserialize(Some(s)).value);
    RoundTrip(Deserialize(Some(t)).value);
  }

  /** The signed value a part denotes, when it is a well-formed numeral. */
  ghost predicate DenotesSigned(part: string, v: int) {
    && IsNumeral(Unsigned(part)) && AllDigits(Unsigned(part))
    && v == if part[0] == '-' then 0 - Denotes(Unsigned(part)) else Denotes(Unsigned(part))
  }

  predicate InRange(v: int) {
    -0x8000_0000 <= v < 0x8000_0000
  }

  lemma PartParses(part: string, v: int)
    ensures ParseInt(part).Some? && ParseInt(part).value == v <==> DenotesSigned(part, v) && InRange(v)
  {
    assert IsNumeral(Unsigned(part)) <==> Unsigned(part) != "" && AllDigits(Unsigned(part));
  }

  /** A string is accepted, as the given list, exactly when it consists of three or four
      dot-separated numerals in the 32-bit range that denote the list's elements. */
  lemma AcceptsExactly(s: string, version: seq<int32>)
    ensures Deserialize(Some(s)) == Some(version)
            <==> (&& 3 <= |version| <= 4
                  && |Split(s)| == |version|
                  && forall i :: 0 <= i < |version| ==> DenotesSigned(Split(s)[i], version[i]))
  {
    var parts := Split(s);
    if |parts| == |version| {
      forall i | 0 <= i < |parts|
        ensures ParseInt(parts[i]) == Some(version[i]) <==> DenotesSigned(parts[i], version[i])
      {
        PartParses(parts[i], version[i]);
      }
      if 3 <= |version| <= 4 && forall i :: 0 <= i < |parts| ==> DenotesSigned(parts[i], version[i]) {
        assert Deserialize(Some(s)).value == version;
      }
    }
  }

  /** A part that is no numeral, or denotes a number out of range, rejects the whole string. */
  lemma RejectsBadPart(s: string, i: nat)
    requires i < |Split(s)|
    requires forall v :: DenotesSigned(Split(s)[i], v) ==> !InRange(v)
    ensures Deserialize(Some(s)).None?
  {
    if ParseInt(Split(s)[i]).Some? {
      PartParses(Split(s)[i], ParseInt(Split(s)[i]).value);
    }
  }
}
