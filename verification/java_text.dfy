/**
 * The string operations of the Java and Apache Commons libraries that the
 * helpers call: `String.trim`, `StringTokenizer` over one delimiter,
 * `StringUtils.isBlank`, and ASCII case folding.
 */
module JavaText {
  import opened Wrappers

  /** `s` without its leading characters at or below the space character. */
  function TrimStart(s: string): (r: string)
    ensures |r| <= |s|
  {
    if s != [] && s[0] <= ' ' then TrimStart(s[1..]) else s
  }

  /** TrimStart drops a blank prefix and keeps the rest, which starts above the space character. */
  lemma {:induction false} TrimStartDropsBlanks(s: string)
    ensures TrimStart(s) == s[|s| - |TrimStart(s)|..]
    ensures forall i :: 0 <= i < |s| - |TrimStart(s)| ==> s[i] <= ' '
    ensures TrimStart(s) == [] || TrimStart(s)[0] > ' '
  {
    if s != [] && s[0] <= ' ' {
      TrimStartDropsBlanks(s[1..]);
      forall i | 1 <= i < |s| - |TrimStart(s)|
        ensures s[i] <= ' '
      {
        assert s[i] == s[1..][i - 1];
      }
    }
  }

  /** `s` without its trailing characters at or below the space character. */
  function TrimEnd(s: string): (r: string)
    ensures |r| <= |s|
  {
    if s != [] && s[|s| - 1] <= ' ' then TrimEnd(s[..|s| - 1]) else s
  }

  /** TrimEnd drops a blank suffix and keeps the rest, which ends above the space character. */
  lemma {:induction false} TrimEndDropsBlanks(s: string)
    ensures TrimEnd(s) == s[..|TrimEnd(s)|]
    ensures forall i :: |TrimEnd(s)| <= i < |s| ==> s[i] <= ' '
    ensures TrimEnd(s) == [] || TrimEnd(s)[|TrimEnd(s)| - 1] > ' '
  {
    if s != [] && s[|s| - 1] <= ' ' {
      TrimEndDropsBlanks(s[..|s| - 1]);
    }
  }

  /** `String.trim`: both ends stripped of characters at or below the space character. */
  function Trim(s: string): (r: string)
  {
    TrimEnd(TrimStart(s))
  }

  /** Where the trimmed text starts in `s`. */
  function TrimOffset(s: string): (a: nat)
    ensures a <= |s|
  {
    |s| - |TrimStart(s)|
  }

  /** Trim removes exactly a blank prefix and a blank suffix. */
  lemma {:induction false} TrimIsBlankStripped(s: string)
    ensures TrimOffset(s) + |Trim(s)| <= |s|
    ensures Trim(s) == s[TrimOffset(s)..TrimOffset(s) + |Trim(s)|]
    ensures forall i :: 0 <= i < TrimOffset(s) ==> s[i] <= ' '
    ensures forall i :: TrimOffset(s) + |Trim(s)| <= i < |s| ==> s[i] <= ' '
  {
    var t := TrimStart(s);
    var r := TrimEnd(t);
    var a := TrimOffset(s);
    TrimStartDropsBlanks(s);
    TrimEndDropsBlanks(t);
    assert t == s[a..];
    assert r == t[..|r|];
    forall i | a + |r| <= i < |s|
      ensures s[i] <= ' '
    {
      assert s[i] == t[i - a];
    }
  }

  /** A trimmed string is empty or starts and ends above the space character. */
  lemma {:induction false} TrimLeavesNonBlankEnds(s: string)
    ensures Trim(s) == [] || (Trim(s)[0] > ' ' && Trim(s)[|Trim(s)| - 1] > ' ')
  {
    var t := TrimStart(s);
    var r := TrimEnd(t);
    TrimStartDropsBlanks(s);
    TrimEndDropsBlanks(t);
    if r != [] {
      assert r[0] == t[0];
    }
  }

  /** Trimming twice is trimming once. */
  lemma TrimIdempotent(s: string)
    ensures Trim(Trim(s)) == Trim(s)
  {
    var r := Trim(s);
    TrimLeavesNonBlankEnds(s);
    assert TrimStart(r) == r;
    assert TrimEnd(r) == r;
  }

  /** The text between delimiters `d`, empty pieces included: "a,,b" split at ',' gives "a", "" and "b". */
  function Pieces(s: string, d: char): (r: seq<string>)
    ensures |r| >= 1
  {
    if s == [] then [""]
    else if s[0] == d then [""] + Pieces(s[1..], d)
    else var rest := Pieces(s[1..], d); [[s[0]] + rest[0]] + rest[1..]
  }

  /** The pieces joined with the delimiter `d`. */
  function JoinWith(ps: seq<string>, d: char): string
    requires |ps| >= 1
  {
    if |ps| == 1 then ps[0] else ps[0] + [d] + JoinWith(ps[1..], d)
  }

  /** No piece holds the delimiter. */
  lemma {:induction false} PiecesHaveNoDelimiter(s: string, d: char)
    ensures forall i :: 0 <= i < |Pieces(s, d)| ==> d !in Pieces(s, d)[i]
  {
    if s != [] {
      PiecesHaveNoDelimiter(s[1..], d);
    }
  }

  /** Joining the pieces with the delimiter gives back the string. */
  lemma {:induction false} PiecesRoundTrip(s: string, d: char)
    ensures JoinWith(Pieces(s, d), d) == s
  {
    if s == [] {
    } else if s[0] == d {
      PiecesRoundTrip(s[1..], d);
      assert s == [d] + s[1..];
    } else {
      var tail := s[1..];
      var rest := Pieces(tail, d);
      PiecesRoundTrip(tail, d);
      var first := [s[0]] + rest[0];
      assert Pieces(s, d) == [first] + rest[1..];
      if |rest| == 1 {
        assert JoinWith(Pieces(s, d), d) == first;
        assert rest[0] == tail;
      } else {
        var more := JoinWith(rest[1..], d);
        assert ([first] + rest[1..])[1..] == rest[1..];
        assert JoinWith(Pieces(s, d), d) == first + [d] + more;
        assert tail == rest[0] + [d] + more;
      }
      assert s == [s[0]] + tail;
    }
  }

  /** A delimiter-free piece followed by the delimiter splits off as the first piece. */
  lemma {:induction false} PiecesOfLeadingPiece(p: string, rest: string, d: char)
    requires d !in p
    ensures Pieces(p + [d] + rest, d) == [p] + Pieces(rest, d)
  {
    if p == [] {
      assert p + [d] + rest == [d] + rest;
    } else {
      assert (p + [d] + rest)[1..] == p[1..] + [d] + rest;
      PiecesOfLeadingPiece(p[1..], rest, d);
      assert [p[0]] + p[1..] == p;
    }
  }

  /** A string without the delimiter is a single piece. */
  lemma {:induction false} PiecesOfPlain(p: string, d: char)
    requires d !in p
    ensures Pieces(p, d) == [p]
  {
    if p != [] {
      PiecesOfPlain(p[1..], d);
      assert [p[0]] + p[1..] == p;
    }
  }

  /** Splitting delimiter-free pieces joined with the delimiter gives them back. */
  lemma {:induction false} JoinRoundTrip(ps: seq<string>, d: char)
    requires |ps| >= 1
    requires forall i :: 0 <= i < |ps| ==> d !in ps[i]
    ensures Pieces(JoinWith(ps, d), d) == ps
  {
    if |ps| == 1 {
      PiecesOfPlain(ps[0], d);
    } else {
      JoinRoundTrip(ps[1..], d);
      PiecesOfLeadingPiece(ps[0], JoinWith(ps[1..], d), d);
    }
  }

  /** The non-empty strings of `ps`, in order. */
  function NonEmpty(ps: seq<string>): (r: seq<string>)
    ensures |r| <= |ps|
    ensures forall i :: 0 <= i < |r| ==> r[i] != "" && r[i] in ps
    ensures forall i :: 0 <= i < |ps| && ps[i] != "" ==> ps[i] in r
  {
    if ps == [] then []
    else if ps[0] == "" then NonEmpty(ps[1..])
    else [ps[0]] + NonEmpty(ps[1..])
  }

  /**
   * The tokens a `StringTokenizer` with the delimiter "," returns, in
   * order: the maximal comma-free runs, the empty ones skipped.
   */
  function CommaTokens(s: string): (r: seq<string>)
    ensures forall i :: 0 <= i < |r| ==> r[i] != "" && ',' !in r[i]
  {
    PiecesHaveNoDelimiter(s, ',');
    NonEmpty(Pieces(s, ','))
  }

  /** The tokens of comma-joined comma-free pieces are those pieces that are not empty. */
  lemma CommaTokensOfJoin(ps: seq<string>)
    requires |ps| >= 1
    requires forall i :: 0 <= i < |ps| ==> ',' !in ps[i]
    ensures CommaTokens(JoinWith(ps, ',')) == NonEmpty(ps)
  {
    JoinRoundTrip(ps, ',');
  }

  /** Java's `Character.isWhitespace`, restricted to the ASCII range. */
  predicate IsWhitespace(c: char)
  {
    c == ' ' || c == '\t' || c == '\n' || c == '\r' || c == '\U{B}' || c == '\U{C}'
      || ('\U{1C}' <= c <= '\U{1F}')
  }

  /** `StringUtils.isBlank`: null, empty, or only whitespace. */
  predicate IsBlank(s: Option<string>)
  {
    s.None? || forall i :: 0 <= i < |s.value| ==> IsWhitespace(s.value[i])
  }

  /** ASCII upper case folded to lower case. */
  function ToLower(c: char): (r: char)
    ensures 'A' <= c <= 'Z' ==> r as int == c as int + 32
    ensures !('A' <= c <= 'Z') ==> r == c
  {
    if 'A' <= c <= 'Z' then (c as int + 32) as char else c
  }

  /** `String.equalsIgnoreCase`, with ASCII case folding. */
  predicate EqualsIgnoreCase(a: string, b: string)
  {
    |a| == |b| && forall i :: 0 <= i < |a| ==> ToLower(a[i]) == ToLower(b[i])
  }

  const INT_MIN := -0x8000_0000
  const INT_MAX := 0x7fff_ffff
  const LONG_MIN := -0x8000_0000_0000_0000
  const LONG_MAX := 0x7fff_ffff_ffff_ffff

  predicate IsDigit(c: char)
  {
    '0' <= c <= '9'
  }

  predicate AllDigits(s: string)
  {
    forall i :: 0 <= i < |s| ==> IsDigit(s[i])
  }

  /** The number the decimal digits `ds` spell, most significant first. */
  function DigitsValue(ds: string): (n: nat)
    requires AllDigits(ds)
  {
    if ds == [] then 0 else DigitsValue(ds[..|ds| - 1]) * 10 + (ds[|ds| - 1] as int - '0' as int)
  }

  /**
   * The number a Java `parseInt`/`parseLong` reads from `s` before its
   * range check: an optional sign and at least one digit, and nothing
   * else; `None` where Java throws `NumberFormatException`.
   */
  function ParseDecimal(s: string): (r: Option<int>)
    ensures s == [] ==> r.None?
  {
    if s == [] then None
    else if s[0] == '-' || s[0] == '+' then
      if |s| == 1 || !AllDigits(s[1..]) then None
      else if s[0] == '-' then Some(-(DigitsValue(s[1..]) as int)) else Some(DigitsValue(s[1..]) as int)
    else if AllDigits(s) then Some(DigitsValue(s) as int)
    else None
  }

  /** `Integer.parseInt` (`lo`, `hi` the `int` range) or `Long.parseLong` (the `long` range). */
  function ParseInRange(s: string, lo: int, hi: int): (r: Option<int>)
    ensures r.Some? ==> lo <= r.value <= hi && ParseDecimal(s) == r
    ensures r.None? ==> ParseDecimal(s).None? || !(lo <= ParseDecimal(s).value <= hi)
  {
    var v := ParseDecimal(s);
    if v.Some? && lo <= v.value <= hi then v else None
  }

  /** The decimal digits of `n`, without leading zeros. */
  function ShowNat(n: nat): (r: string)
    ensures |r| >= 1 && AllDigits(r)
    ensures |r| > 1 ==> r[0] != '0'
  {
    if n < 10 then [('0' as int + n) as char]
    else ShowNat(n / 10) + [('0' as int + n % 10) as char]
  }

  /** `String.valueOf` of an integer: its decimal digits, after a minus sign when negative. */
  function ShowInt(n: int): (r: string)
    ensures |r| >= 1
  {
    if n < 0 then "-" + ShowNat(-n) else ShowNat(n)
  }

  /** Reading back the digits of `n` gives `n`. */
  lemma {:induction false} DigitsOfShowNat(n: nat)
    ensures DigitsValue(ShowNat(n)) == n
  {
    if n >= 10 {
      DigitsOfShowNat(n / 10);
      var r := ShowNat(n);
      assert r[..|r| - 1] == ShowNat(n / 10);
    }
  }

  /** Parsing the decimal form of any integer gives that integer back. */
  lemma ParseShowRoundTrip(n: int)
    ensures ParseDecimal(ShowInt(n)) == Some(n)
  {
    if n < 0 {
      ParseNegative(-n);
    } else {
      var s := ShowNat(n);
      assert IsDigit(s[0]);
      DigitsOfShowNat(n);
    }
  }

  /** A minus sign followed by the digits of `m` parses as `-m`. */
  lemma ParseNegative(m: nat)
    ensures ParseDecimal("-" + ShowNat(m)) == Some(-(m as int))
  {
    var digits := ShowNat(m);
    var s := "-" + digits;
    assert s[1..] == digits;
    DigitsOfShowNat(m);
  }
}
