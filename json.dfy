/**
 * `JSON.stringify` of an array of integers, the text the QR order stores in the
 * `addons` column of `qr_order_items`, and a reader that recovers the array from
 * that text.
 */
module Json {
  import opened Js

  /** The decimal digit character for `d`. */
  function DigitChar(d: nat): (c: char)
    requires d < 10
    ensures '0' <= c <= '9'
    ensures c as int - '0' as int == d
  {
    ('0' as int + d) as char
  }

  /** The decimal numeral of `n`: most significant digit first, no leading zero. */
  function Numeral(n: nat): (s: string)
    ensures |s| > 0
    ensures forall k :: 0 <= k < |s| ==> '0' <= s[k] <= '9'
  {
    if n < 10 then [DigitChar(n)] else Numeral(n / 10) + [DigitChar(n % 10)]
  }

  /** How `JSON.stringify` writes an integer: a minus sign for a negative one, then its numeral. */
  function IntText(i: int): (s: string)
    ensures |s| > 0
    ensures ',' !in s
  {
    if i < 0 then "-" + Numeral(-i) else Numeral(i)
  }

  /** The elements' texts separated by commas. */
  function JoinTexts(ids: seq<int>): (s: string)
    ensures ids != [] ==> |s| > 0
  {
    if ids == [] then ""
    else if |ids| == 1 then IntText(ids[0])
    else IntText(ids[0]) + "," + JoinTexts(ids[1..])
  }

  /** `JSON.stringify(ids)` for an array of integers. */
  function Stringify(ids: seq<int>): (s: string)
    ensures |s| >= 2 && s[0] == '[' && s[|s| - 1] == ']'
    ensures |s| == 2 <==> ids == []
  {
    "[" + JoinTexts(ids) + "]"
  }

  // ---------------------------------------------------------------------------
  // Reading the text back
  // ---------------------------------------------------------------------------

  /** The value of a non-empty string of decimal digits; `None` for any other string. */
  function ParseNumeral(s: string): Option<nat>
    decreases |s|
  {
    if s == [] || !('0' <= s[|s| - 1] <= '9') then None
    else
      var d: nat := s[|s| - 1] as int - '0' as int;
      if |s| == 1 then Some(d)
      else match ParseNumeral(s[..|s| - 1])
        case None => None
        case Some(v) => Some(v * 10 + d)
  }

  /** The value of an optionally signed numeral. */
  function ParseInt(s: string): Option<int>
  {
    var negative := |s| > 0 && s[0] == '-';
    var sign: int := if negative then -1 else 1;
    match ParseNumeral(if negative then s[1..] else s)
    case None => None
    case Some(v) => Some(sign * v)
  }

  /** The pieces of `s` between its commas, in order; a string without commas is one piece. */
  function Split(s: string): (parts: seq<string>)
    ensures |parts| > 0
    decreases |s|
  {
    if s == [] then [""]
    else if s[0] == ',' then [""] + Split(s[1..])
    else
      var rest := Split(s[1..]);
      [[s[0]] + rest[0]] + rest[1..]
  }

  /** Every piece read as an integer, or `None` if one is not a numeral. */
  function ParseAll(parts: seq<string>): Option<seq<int>>
  {
    if parts == [] then Some([])
    else match (ParseInt(parts[0]), ParseAll(parts[1..]))
      case (Some(i), Some(rest)) => Some([i] + rest)
      case _ => None
  }

  /** `JSON.parse` of a text that should hold an array of integers; `None` for any other text. */
  function Parse(s: string): Option<seq<int>>
  {
    if |s| < 2 || s[0] != '[' || s[|s| - 1] != ']' then None
    else if |s| == 2 then Some([])
    else ParseAll(Split(s[1..|s| - 1]))
  }

  // ---------------------------------------------------------------------------
  // The round trip
  // ---------------------------------------------------------------------------

  lemma {:induction false} ParseNumeralOf(n: nat)
    ensures ParseNumeral(Numeral(n)) == Some(n)
  {
    var s := Numeral(n);
    if n >= 10 {
      ParseNumeralOf(n / 10);
      assert s[..|s| - 1] == Numeral(n / 10);
    }
  }

  /** A string that starts with a digit is read unsigned. */
  lemma ParseIntUnsigned(s: string)
    requires |s| > 0 && '0' <= s[0] <= '9'
    ensures ParseInt(s) == match ParseNumeral(s) case None => None case Some(v) => Some(v as int)
  {
  }

  /** A minus sign followed by a numeral is read negated. */
  lemma ParseIntNegative(digits: string)
    ensures ParseInt("-" + digits) == match ParseNumeral(digits) case None => None case Some(v) => Some(0 - v as int)
  {
    assert ("-" + digits)[0] == '-' && ("-" + digits)[1..] == digits;
  }

  lemma ParseIntText(i: int)
    ensures ParseInt(IntText(i)) == Some(i)
  {
    if i < 0 {
      ParseNumeralOf(-i);
      ParseIntNegative(Numeral(-i));
    } else {
      ParseNumeralOf(i);
      ParseIntUnsigned(Numeral(i));
    }
  }

  lemma {:induction false} SplitPlain(x: string)
    requires ',' !in x
    ensures Split(x) == [x]
  {
    if x != [] {
      SplitPlain(x[1..]);
      assert [x[0]] + x[1..] == x;
    }
  }

  lemma {:induction false} SplitAt(x: string, y: string)
    requires ',' !in x
    ensures Split(x + "," + y) == [x] + Split(y)
  {
    if x == [] {
      assert x + "," + y == "," + y;
      assert ("," + y)[1..] == y;
    } else {
      var s := x + "," + y;
      assert s[1..] == x[1..] + "," + y;
      SplitAt(x[1..], y);
      assert [x[0]] + x[1..] == x;
    }
  }

  lemma {:induction false} ParseAllJoin(ids: seq<int>)
    requires ids != []
    ensures ParseAll(Split(JoinTexts(ids))) == Some(ids)
  {
    ParseIntText(ids[0]);
    if |ids| == 1 {
      SplitPlain(IntText(ids[0]));
      assert [IntText(ids[0])][1..] == [];
      assert [ids[0]] + [] == ids;
    } else {
      SplitAt(IntText(ids[0]), JoinTexts(ids[1..]));
      ParseAllJoin(ids[1..]);
      var parts := [IntText(ids[0])] + Split(JoinTexts(ids[1..]));
      assert parts[0] == IntText(ids[0]) && parts[1..] == Split(JoinTexts(ids[1..]));
      assert [ids[0]] + ids[1..] == ids;
    }
  }

  /** Reading back the text `JSON.stringify` wrote gives the array. */
  lemma ParseStringify(ids: seq<int>)
    ensures Parse(Stringify(ids)) == Some(ids)
  {
    var s := Stringify(ids);
    if ids != [] {
      assert s[1..|s| - 1] == JoinTexts(ids);
      ParseAllJoin(ids);
    }
  }

  /** Distinct arrays are stored as distinct texts. */
  lemma StringifyInjective(a: seq<int>, b: seq<int>)
    requires Stringify(a) == Stringify(b)
    ensures a == b
  {
    ParseStringify(a);
    ParseStringify(b);
  }
}
