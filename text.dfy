/** The string helpers of Go's standard library that the core relies on:
    `strings.Join(parts, ",")`, `strings.Split(s, ",")` and `strconv.Itoa`. */
module Text {

  /** `strings.Join(parts, ",")`: the parts with one comma between neighbours. */
  function Join(parts: seq<string>): string
  {
    if |parts| == 0 then ""
    else if |parts| == 1 then parts[0]
    else parts[0] + "," + Join(parts[1..])
  }

  /** `strings.Split(s, ",")`: the maximal comma-free pieces of `s`, in order.
      Like Go's, it never returns an empty list: `Split("") == [""]`. */
  function Split(s: string): (r: seq<string>)
    ensures |r| >= 1
    ensures forall i :: 0 <= i < |r| ==> ',' !in r[i]
  {
    if s == [] then [""]
    else if s[0] == ',' then [""] + Split(s[1..])
    else
      var rest := Split(s[1..]);
      [[s[0]] + rest[0]] + rest[1..]
  }

  lemma JoinConsHead(c: char, p: string, ps: seq<string>)
    ensures Join([[c] + p] + ps) == [c] + Join([p] + ps)
  {
    if |ps| > 0 {
      assert ([[c] + p] + ps)[1..] == ps;
      assert ([p] + ps)[1..] == ps;
    }
  }

  /** Re-joining the pieces of a split gives back the original string. */
  lemma {:induction false} JoinSplit(s: string)
    ensures Join(Split(s)) == s
  {
    if s == [] {
    } else if s[0] == ',' {
      JoinSplit(s[1..]);
      assert ([""] + Split(s[1..]))[1..] == Split(s[1..]);
    } else {
      var rest := Split(s[1..]);
      JoinSplit(s[1..]);
      JoinConsHead(s[0], rest[0], rest[1..]);
      assert [rest[0]] + rest[1..] == rest;
      assert [s[0]] + s[1..] == s;
    }
  }

  lemma {:induction false} SplitNoComma(p: string, t: string)
    requires ',' !in p
    ensures Split(p + t) == [p + Split(t)[0]] + Split(t)[1..]
  {
    if p != [] {
      assert (p + t)[1..] == p[1..] + t;
      SplitNoComma(p[1..], t);
      assert [p[0]] + (p[1..] + Split(t)[0]) == p + Split(t)[0];
    } else {
      assert p + t == t;
      assert p + Split(t)[0] == Split(t)[0];
      assert [Split(t)[0]] + Split(t)[1..] == Split(t);
    }
  }

  /** Splitting a join of comma-free parts gives back the parts. */
  lemma {:induction false} SplitJoin(parts: seq<string>)
    requires |parts| >= 1
    requires forall i :: 0 <= i < |parts| ==> ',' !in parts[i]
    ensures Split(Join(parts)) == parts
  {
    if |parts| == 1 {
      SplitNoComma(parts[0], "");
      assert parts[0] + "" == parts[0];
    } else {
      var tail := Join(parts[1..]);
      SplitJoin(parts[1..]);
      assert Join(parts) == parts[0] + ("," + tail);
      SplitNoComma(parts[0], "," + tail);
      assert ("," + tail)[0] == ',' && ("," + tail)[1..] == tail;
      assert Split("," + tail) == [""] + parts[1..];
      assert parts[0] + "" == parts[0];
      assert [parts[0]] + parts[1..] == parts;
    }
  }

  /** The ASCII digit for `d`. */
  function DigitChar(d: nat): (c: char)
    requires d < 10
    ensures '0' <= c <= '9' && c as int - '0' as int == d
  {
    ('0' as int + d) as char
  }

  predicate IsDigits(s: string)
  {
    forall i :: 0 <= i < |s| ==> '0' <= s[i] <= '9'
  }

  /** The number a string of decimal digits denotes (most significant first). */
  function DigitsValue(s: string): nat
    requires IsDigits(s)
  {
    if s == [] then 0
    else DigitsValue(s[..|s| - 1]) * 10 + (s[|s| - 1] as int - '0' as int)
  }

  /** Decimal rendering of a natural number, without leading zeros. */
  function DecimalString(n: nat): (s: string)
    ensures |s| >= 1 && IsDigits(s)
    ensures n > 0 ==> s[0] != '0'
  {
    if n < 10 then [DigitChar(n)]
    else DecimalString(n / 10) + [DigitChar(n % 10)]
  }

  /** The rendering denotes the number it renders. */
  lemma {:induction false} DecimalStringValue(n: nat)
    ensures DigitsValue(DecimalString(n)) == n
  {
    var s := DecimalString(n);
    if n < 10 {
      assert s[..0] == [];
    } else {
      DecimalStringValue(n / 10);
      assert s[..|s| - 1] == DecimalString(n / 10);
    }
  }

  /** `strconv.Itoa`: decimal rendering with a leading minus for negatives. */
  function Itoa(n: int): (s: string)
    ensures n >= 0 ==> IsDigits(s) && DigitsValue(s) == n
    ensures n < 0 <==> (|s| > 0 && s[0] == '-')
  {
    if n < 0 then "-" + DecimalString(-n)
    else DecimalStringValue(n); DecimalString(n)
  }
}
