/**
 * Padding HTML text to a length with non-breaking spaces
 * (`HtmlMx.expandToLength`, `HTMLs.fitToLength`). The length counts
 * characters of the text, while each pad adds the six characters of
 * "&nbsp;".
 */
module HtmlPadding {
  import opened Wrappers

  const SPACE := "&nbsp;"

  /** The six characters starting at `6 * k`. */
  function Block(s: string, k: nat): string
    requires 6 * k + 6 <= |s|
  {
    s[6 * k..6 * k + 6]
  }

  /** `StringUtils.repeat(SPACE, n)`: `n` copies of "&nbsp;", none when `n` is 0 or less. */
  function Spaces(n: int): (r: string)
    ensures |r| == if n <= 0 then 0 else 6 * n
  {
    if n <= 0 then "" else Spaces(n - 1) + SPACE
  }

  /** Every six-character block of the pads is "&nbsp;". */
  lemma {:induction false} SpacesAreBlocks(n: int)
    ensures forall k: nat :: 6 * k + 6 <= |Spaces(n)| ==> Block(Spaces(n), k) == SPACE
  {
    if n > 0 {
      SpacesAreBlocks(n - 1);
      var prev, r := Spaces(n - 1), Spaces(n);
      forall k: nat | 6 * k + 6 <= |r|
        ensures Block(r, k) == SPACE
      {
        if 6 * k + 6 <= |prev| {
          assert Block(r, k) == Block(prev, k);
        } else {
          assert 6 * k == |prev|;
          assert Block(r, k) == r[|prev|..];
        }
      }
    }
  }

  /**
   * What both methods return: the pads alone for null text, the text
   * unchanged when it is long enough, otherwise the text followed by one
   * pad per missing character.
   */
  function Padded(html: Option<string>, length: int): string
  {
    if html.None? then Spaces(length)
    else if |html.value| >= length then html.value
    else html.value + Spaces(length - |html.value|)
  }

  /** A non-null text is kept as the prefix and followed by exactly the missing number of pads. */
  lemma PaddedShape(html: string, length: int)
    ensures var r := Padded(Some(html), length);
      var missing := if length > |html| then length - |html| else 0;
      |r| == |html| + 6 * missing && r[..|html|] == html && r[|html|..] == Spaces(missing)
  {
  }

  /** Padding is idempotent for text: padded text is at least `length` long and so comes back as is. */
  lemma PaddingTwiceIsOnce(html: string, length: int)
    ensures Padded(Some(Padded(Some(html), length)), length) == Padded(Some(html), length)
  {
  }

  /** One more pad. */
  lemma SpacesStep(i: nat)
    ensures Spaces(i + 1) == Spaces(i) + SPACE
  {
  }

  /** `HtmlMx.expandToLength`. */
  method ExpandToLength(html: Option<string>, length: int) returns (r: string)
    ensures r == Padded(html, length)
  {
    if html.None? {
      return Spaces(length);
    }
    var htmlLength := |html.value|;
    if htmlLength >= length {
      return html.value;
    }
    var expandLength := length - htmlLength;
    var sb := html.value;
    for i := 0 to expandLength
      invariant sb == html.value + Spaces(i)
    {
      sb := sb + SPACE;
    }
    return sb;
  }

  /** `HTMLs.fitToLength`: the same computation with the bound recomputed on each pass. */
  method FitToLength(html: Option<string>, length: int) returns (r: string)
    ensures r == Padded(html, length)
  {
    if html.None? {
      return Spaces(length);
    }
    var len := |html.value|;
    if len >= length {
      return html.value;
    }
    var sb := html.value;
    var i := 0;
    while i < length - len
      invariant 0 <= i <= length - len
      invariant sb == html.value + Spaces(i)
    {
      sb := sb + SPACE;
      i := i + 1;
    }
    return sb;
  }

  /** "abc" padded to 5 is "abc&nbsp;&nbsp;". */
  lemma PaddingExample()
    ensures Padded(Some("abc"), 5) == "abc&nbsp;&nbsp;"
  {
    assert Spaces(2) == "&nbsp;" + "&nbsp;";
  }
}
