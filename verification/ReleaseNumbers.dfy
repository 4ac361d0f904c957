/** Release numbers of scripts/version.py:70-79, 156-162: their text, their order and the next ones. */
module ReleaseNumbers {
  import opened Decimals
  import opened Options

  datatype Version = Version(major: nat, minor: nat, patch: nat)

  datatype Part = Major | Minor | Patch

  /** 0|[1-9][0-9]*. */
  predicate Numeral(s: string) {
    s != "" && Digits(s) && (|s| > 1 ==> s[0] != '0')
  }

  function Split(s: string): (parts: seq<string>)
    ensures |parts| > 0
  {
    if s == "" then [""]
    else
      var rest, c := Split(s[..|s| - 1]), s[|s| - 1];
      if c == '.' then rest + [""] else rest[|rest| - 1 := rest[|rest| - 1] + [c]]
  }

  /** validate(), and the numbers split() and int() read from a valid text. */
  function Parse(value: string): Option<Version> {
    var parts := Split(value);
    if |parts| == 3 && Numeral(parts[0]) && Numeral(parts[1]) && Numeral(parts[2])
    then Some(Version(NumberOf(parts[0]), NumberOf(parts[1]), NumberOf(parts[2])))
    else None
  }

  function Text(v: Version): string {
    Decimal(v.major) + "." + Decimal(v.minor) + "." + Decimal(v.patch)
  }

  function Next(v: Version, part: Part): Version {
    match part
    case Major => Version(v.major + 1, 0, 0)
    case Minor => Version(v.major, v.minor + 1, 0)
    case Patch => Version(v.major, v.minor, v.patch + 1)
  }

  /** next_version. */
  function NextVersion(value: string, part: Part): Option<string> {
    match Parse(value)
    case None => None
    case Some(v) => Some(Text(Next(v, part)))
  }

  /** Precedence of releases (item 11 of Semantic Versioning 2.0.0), and Python's order of tuples. */
  predicate Less(a: Version, b: Version) {
    || a.major < b.major
    || (a.major == b.major && (a.minor < b.minor || (a.minor == b.minor && a.patch < b.patch)))
  }

  /* ---------- texts ---------- */

  lemma {:induction false} DecimalIsNumeral(n: nat)
    ensures Numeral(Decimal(n)) && (n > 0 ==> Decimal(n)[0] != '0')
  {
    if n >= 10 {
      DecimalIsNumeral(n / 10);
      assert Decimal(n)[0] == Decimal(n / 10)[0];
    }
  }

  lemma {:induction false} NumeralIsPositive(s: string)
    requires Numeral(s) && s[0] != '0'
    ensures NumberOf(s) > 0
  {
    if |s| > 1 {
      NumeralIsPositive(s[..|s| - 1]);
    } else {
      assert s[..0] == "";
    }
  }

  lemma {:induction false} NumeralIsDecimal(s: string)
    requires Numeral(s)
    ensures Decimal(NumberOf(s)) == s
  {
    var rest := s[..|s| - 1];
    if |s| > 1 {
      NumeralIsPositive(rest);
      NumeralIsDecimal(rest);
      LastDigit(NumberOf(rest), s[|s| - 1] as int - '0' as int);
      assert s == rest + [s[|s| - 1]];
    } else {
      assert rest == "";
    }
  }

  lemma LastDigit(n: nat, d: nat)
    requires n > 0 && d < 10
    ensures Decimal(10 * n + d) == Decimal(n) + [d as char + '0']
  {
    assert (10 * n + d) / 10 == n && (10 * n + d) % 10 == d;
  }

  lemma {:induction false} SplitAppend(s: string, digits: string)
    requires '.' !in digits
    ensures Split(s + digits) == Split(s)[|Split(s)| - 1 := Split(s)[|Split(s)| - 1] + digits]
  {
    if digits == "" {
      assert s + digits == s && Split(s)[|Split(s)| - 1] + digits == Split(s)[|Split(s)| - 1];
    } else {
      var rest := digits[..|digits| - 1];
      SplitAppend(s, rest);
      assert (s + digits)[..|s + digits| - 1] == s + rest;
      var parts, last := Split(s), digits[|digits| - 1];
      assert digits == rest + [last] && (s + digits)[|s + digits| - 1] == last;
      assert parts[|parts| - 1] + rest + [last] == parts[|parts| - 1] + digits;
    }
  }

  lemma SplitDot(s: string)
    ensures Split(s + ".") == Split(s) + [""]
  {
    assert (s + ".")[..|s|] == s;
  }

  lemma SplitThree(a: string, b: string, c: string)
    requires '.' !in a && '.' !in b && '.' !in c
    ensures Split(a + "." + b + "." + c) == [a, b, c]
  {
    assert "" + a == a && "" + b == b && "" + c == c;
    SplitAppend("", a);
    assert Split("") == [""];
    SplitDot(a);
    SplitAppend(a + ".", b);
    assert Split(a + "." + b) == [a, b];
    SplitDot(a + "." + b);
    SplitAppend(a + "." + b + ".", c);
  }

  function Join(parts: seq<string>): string
    requires |parts| > 0
  {
    if |parts| == 1 then parts[0] else Join(parts[..|parts| - 1]) + "." + parts[|parts| - 1]
  }

  lemma {:induction false} SplitJoins(s: string)
    ensures Join(Split(s)) == s
  {
    if s != "" {
      var before := s[..|s| - 1];
      var rest, c := Split(before), s[|s| - 1];
      SplitJoins(before);
      assert s == before + [c];
      if c == '.' {
        JoinDot(rest);
      } else {
        JoinChar(rest, c);
      }
    }
  }

  lemma JoinDot(parts: seq<string>)
    requires |parts| > 0
    ensures Join(parts + [""]) == Join(parts) + "."
  {
    assert (parts + [""])[..|parts|] == parts;
    assert Join(parts) + "." + "" == Join(parts) + ".";
  }

  lemma JoinChar(parts: seq<string>, c: char)
    requires |parts| > 0
    ensures Join(parts[|parts| - 1 := parts[|parts| - 1] + [c]]) == Join(parts) + [c]
  {
    var last := parts[|parts| - 1];
    var next := parts[|parts| - 1 := last + [c]];
    assert next[..|next| - 1] == parts[..|parts| - 1];
    if |parts| > 1 {
      var before := Join(parts[..|parts| - 1]);
      assert before + "." + (last + [c]) == before + "." + last + [c];
    }
  }

  /** A release number reads back from its text. */
  lemma TextParses(v: Version)
    ensures Parse(Text(v)) == Some(v)
  {
    DecimalIsNumeral(v.major);
    DecimalIsNumeral(v.minor);
    DecimalIsNumeral(v.patch);
    NoDot(Decimal(v.major));
    NoDot(Decimal(v.minor));
    NoDot(Decimal(v.patch));
    SplitThree(Decimal(v.major), Decimal(v.minor), Decimal(v.patch));
    DecimalReadsBack(v.major);
    DecimalReadsBack(v.minor);
    DecimalReadsBack(v.patch);
  }

  lemma NoDot(s: string)
    requires Digits(s)
    ensures '.' !in s
  {
  }

  /** And a valid text is the text of its number: there is one way to write each release. */
  lemma ValidTextIsCanonical(value: string)
    requires Parse(value).Some?
    ensures Text(Parse(value).value) == value
  {
    var parts := Split(value);
    SplitJoins(value);
    NumeralIsDecimal(parts[0]);
    NumeralIsDecimal(parts[1]);
    NumeralIsDecimal(parts[2]);
    assert parts[..2] == [parts[0], parts[1]] && parts[..2][..1] == [parts[0]];
    assert Join(parts) == Join(parts[..2]) + "." + parts[2];
    assert Join(parts[..2]) == Join(parts[..2][..1]) + "." + parts[1];
  }

  /* ---------- order ---------- */

  /** Every bump is a valid release and passes the guard of set_version; the patch is the very next one. */
  lemma BumpsIncrease(value: string, part: Part)
    requires Parse(value).Some?
    ensures NextVersion(value, part).Some? && Parse(NextVersion(value, part).value).Some?
    ensures Less(Parse(value).value, Parse(NextVersion(value, part).value).value)
    ensures part == Patch ==>
              forall w | Less(Parse(value).value, w) :: !Less(w, Parse(NextVersion(value, part).value).value)
  {
    TextParses(Next(Parse(value).value, part));
  }
}
