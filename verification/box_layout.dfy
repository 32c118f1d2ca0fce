/**
 * The vocabulary shared by the two dump renderers (`dumpStringMap` and
 * `dumpObjectMap`): repeated characters, running maxima of lengths, the
 * clamped value-column width, the number of physical lines a value wraps
 * into, and the chunks a value is cut into.
 *
 * A Java string is modelled as its sequence of characters; `|s|` stands
 * for `s.length()`.
 */
module BoxLayout {

  function Max(a: int, b: int): int { if a >= b then a else b }

  function Min(a: int, b: int): int { if a <= b then a else b }

  /** What `printChar(writer, c, n)` writes: `n` copies of `c`, nothing when `n <= 0`. */
  function Repeat(c: char, n: int): (r: string)
    ensures |r| == Max(n, 0)
    ensures forall i :: 0 <= i < |r| ==> r[i] == c
    decreases n
  {
    if n <= 0 then [] else Repeat(c, n - 1) + [c]
  }

  /** The strings of `ss` written one after the other. */
  function Concat(ss: seq<string>): string
  {
    if ss == [] then [] else Concat(ss[..|ss| - 1]) + ss[|ss| - 1]
  }

  /** The running maximum of the lengths, as the renderers' `maxNameLen` loops keep it (0 for no strings). */
  function MaxLen(ss: seq<string>): nat
  {
    if ss == [] then 0
    else
      var prev := MaxLen(ss[..|ss| - 1]);
      if |ss[|ss| - 1]| > prev then |ss[|ss| - 1]| else prev
  }

  lemma {:induction false} MaxLenIsLongest(ss: seq<string>)
    ensures forall i :: 0 <= i < |ss| ==> |ss[i]| <= MaxLen(ss)
    ensures ss != [] ==> exists i :: 0 <= i < |ss| && |ss[i]| == MaxLen(ss)
  {
    if ss != [] {
      var pre := ss[..|ss| - 1];
      MaxLenIsLongest(pre);
      assert forall i :: 0 <= i < |pre| ==> ss[i] == pre[i];
      if |ss[|ss| - 1]| <= MaxLen(pre) && pre != [] {
        var j :| 0 <= j < |pre| && |pre[j]| == MaxLen(pre);
        assert |ss[j]| == MaxLen(ss);
      }
    }
  }

  /** One step of the value-width loop: a length within the limit raises the width, one beyond it pins the width to the limit. */
  function ClampStep(width: int, len: nat, limit: int): int
  {
    if len <= limit && len > width then len
    else if len > limit then limit
    else width
  }

  /** The value width after the loop has seen every string of `ss`, starting from `seed`. */
  function ClampedWidth(ss: seq<string>, limit: int, seed: int): int
  {
    if ss == [] then seed
    else ClampStep(ClampedWidth(ss[..|ss| - 1], limit, seed), |ss[|ss| - 1]|, limit)
  }

  /** Taking one more string into a prefix is one step of each width loop. */
  lemma WidthsStep(ss: seq<string>, j: nat, limit: int, seed: int)
    requires j < |ss|
    ensures MaxLen(ss[..j + 1]) == if |ss[j]| > MaxLen(ss[..j]) then |ss[j]| else MaxLen(ss[..j])
    ensures ClampedWidth(ss[..j + 1], limit, seed) == ClampStep(ClampedWidth(ss[..j], limit, seed), |ss[j]|, limit)
  {
    assert ss[..j + 1][..j] == ss[..j];
  }

  predicate AnyLonger(ss: seq<string>, limit: int)
  {
    exists i :: 0 <= i < |ss| && |ss[i]| > limit
  }

  /**
   * What the value-width loop computes: the limit as soon as any string is
   * longer than the limit, otherwise the longest length or the seed, whichever
   * is larger. The order in which the strings are seen does not matter.
   */
  lemma {:induction false} ClampedWidthValue(ss: seq<string>, limit: int, seed: nat)
    ensures ClampedWidth(ss, limit, seed) == if AnyLonger(ss, limit) then limit else Max(seed, MaxLen(ss))
  {
    if ss != [] {
      var pre := ss[..|ss| - 1];
      var last := ss[|ss| - 1];
      ClampedWidthValue(pre, limit, seed);
      MaxLenIsLongest(pre);
      assert forall i :: 0 <= i < |pre| ==> ss[i] == pre[i];
      if AnyLonger(pre, limit) {
        var j :| 0 <= j < |pre| && |pre[j]| > limit;
        assert |ss[j]| > limit;
      } else if |last| > limit {
        assert AnyLonger(ss, limit);
      } else {
        forall i | 0 <= i < |ss| ensures |ss[i]| <= limit {
          if i < |pre| { assert ss[i] == pre[i]; }
        }
      }
    }
  }

  /** The string variant's value width before it is reconciled with the title: min(limit, longest value). */
  lemma StringValueWidthIsClampedMax(ss: seq<string>, limit: nat)
    ensures ClampedWidth(ss, limit, 0) == Min(limit, MaxLen(ss))
  {
    ClampedWidthValue(ss, limit, 0);
    MaxLenIsLongest(ss);
    if AnyLonger(ss, limit) {
      var i :| 0 <= i < |ss| && |ss[i]| > limit;
    }
  }

  /** `linNum`: the number of `limit`-character pieces a value of length `len` is cut into (Java's truncating division, then one more for a remainder). */
  function LineCount(len: nat, limit: int): nat
    requires limit >= 1
  {
    len / limit + if len % limit != 0 then 1 else 0
  }

  lemma LineCountBounds(len: nat, limit: int)
    requires limit >= 1
    ensures LineCount(len, limit) == 0 <==> len == 0
    ensures LineCount(len, limit) >= 1 ==> (LineCount(len, limit) - 1) * limit < len <= LineCount(len, limit) * limit
  {
    var q, r := len / limit, len % limit;
    assert len == q * limit + r;
    if r == 0 {
      assert LineCount(len, limit) == q;
      assert (q - 1) * limit == q * limit - limit;
    } else {
      assert LineCount(len, limit) == q + 1;
      assert (q + 1) * limit == q * limit + limit;
    }
  }

  /** A piece that is not the last one lies wholly inside the value. */
  lemma InnerPieceInside(len: nat, limit: int, i: nat)
    requires limit >= 1 && i + 1 < LineCount(len, limit)
    ensures 0 <= i * limit <= i * limit + limit <= len
  {
    LineCountBounds(len, limit);
    var n := LineCount(len, limit);
    assert (i + 1) * limit <= (n - 1) * limit by {
      MulMonotone(i + 1, n - 1, limit);
    }
  }

  /** The last piece starts inside the value and reaches at or past its end. */
  lemma LastPieceBounds(len: nat, limit: int)
    requires limit >= 1 && LineCount(len, limit) >= 1
    ensures 0 <= (LineCount(len, limit) - 1) * limit < len <= LineCount(len, limit) * limit
  {
    LineCountBounds(len, limit);
  }

  lemma MulMonotone(a: nat, b: nat, m: nat)
    requires a <= b
    ensures a * m <= b * m
  {
    assert b * m == a * m + (b - a) * m;
  }

  /** Chunk `i` of `v`: the characters from `i*limit` up to `(i+1)*limit` or the end of `v`. */
  function Chunk(v: string, i: nat, limit: int): (r: string)
    requires limit >= 1
  {
    MulMonotone(0, i, limit);
    v[Min(i * limit, |v|)..Min(i * limit + limit, |v|)]
  }

  /** The first `k` chunks of `v`, in order. */
  function Chunks(v: string, limit: int, k: nat): (r: seq<string>)
    requires limit >= 1
    ensures |r| == k
  {
    if k == 0 then [] else Chunks(v, limit, k - 1) + [Chunk(v, k - 1, limit)]
  }

  lemma {:induction false} ChunksPrefix(v: string, limit: int, k: nat)
    requires limit >= 1
    ensures Concat(Chunks(v, limit, k)) == v[..Min(k * limit, |v|)]
  {
    MulMonotone(0, k, limit);
    if k > 0 {
      ChunksPrefix(v, limit, k - 1);
      var cs := Chunks(v, limit, k);
      assert cs[..k - 1] == Chunks(v, limit, k - 1);
      assert (k - 1) * limit + limit == k * limit;
      MulMonotone(0, k - 1, limit);
      var a, b := Min((k - 1) * limit, |v|), Min(k * limit, |v|);
      assert v[..a] + v[a..b] == v[..b];
    }
  }

  /** Cutting a value into its `linNum` chunks loses and duplicates nothing: the chunks in order spell the value. */
  lemma ChunksRoundTrip(v: string, limit: int)
    requires limit >= 1
    ensures Concat(Chunks(v, limit, LineCount(|v|, limit))) == v
  {
    ChunksPrefix(v, limit, LineCount(|v|, limit));
    LineCountBounds(|v|, limit);
  }

  /** Every chunk but the last is `limit` long; the last is the non-empty remainder. */
  lemma ChunkLengths(v: string, limit: int, i: nat)
    requires limit >= 1 && i < LineCount(|v|, limit)
    ensures i + 1 < LineCount(|v|, limit) ==> |Chunk(v, i, limit)| == limit
    ensures i + 1 == LineCount(|v|, limit) ==> |Chunk(v, i, limit)| == |v| - i * limit > 0
  {
    if i + 1 < LineCount(|v|, limit) {
      InnerPieceInside(|v|, limit, i);
    } else {
      LastPieceBounds(|v|, limit);
      assert (i + 1) * limit == i * limit + limit;
    }
  }

  /** The text between the value column's borders on physical line `i` of a value that wraps into `n` lines. */
  function ValueCell(v: string, i: nat, n: nat, valueWidth: int, limit: int): string
    requires limit >= 1 && n == LineCount(|v|, limit) && i < n
  {
    if i < n - 1 then
      InnerPieceInside(|v|, limit, i);
      v[i * limit..i * limit + limit]
    else if n > 1 then
      LastPieceBounds(|v|, limit);
      v[i * limit..] + Repeat(' ', (i + 1) * limit - |v|)
    else
      v + Repeat(' ', valueWidth - |v|)
  }

  /** The value cell of line `i` is chunk `i` followed only by padding spaces. */
  lemma ValueCellIsChunk(v: string, i: nat, n: nat, valueWidth: int, limit: int)
    requires limit >= 1 && n == LineCount(|v|, limit) && i < n
    ensures ValueCell(v, i, n, valueWidth, limit) == Chunk(v, i, limit) + Repeat(' ', CellPad(|v|, i, n, valueWidth, limit))
  {
    LineCountBounds(|v|, limit);
    if i < n - 1 {
      InnerPieceInside(|v|, limit, i);
      assert Repeat(' ', 0) == [];
    } else if n > 1 {
      LastPieceBounds(|v|, limit);
      var a := i * limit;
      assert (i + 1) * limit == a + limit;
      assert Chunk(v, i, limit) == v[a..];
    } else {
      assert i == 0;
      assert Chunk(v, i, limit) == v[0..|v|] == v;
    }
  }

  /** A value cell fills the value column when the value fits on one line, and is `limit` wide on every line of a wrapped value. */
  lemma CellWidth(v: string, i: nat, n: nat, valueWidth: int, limit: int)
    requires limit >= 1 && n == LineCount(|v|, limit) && i < n
    requires n <= 1 ==> |v| <= valueWidth
    ensures |ValueCell(v, i, n, valueWidth, limit)| == if n > 1 then limit else valueWidth
  {
    ValueCellIsChunk(v, i, n, valueWidth, limit);
    ChunkLengths(v, limit, i);
    if i == n - 1 && n > 1 {
      assert n * limit == i * limit + limit;
    }
  }

  /** The padding after chunk `i`: none on inner lines, up to `n*limit` on a wrapped value's last line, up to the value width on a single line. */
  function CellPad(len: nat, i: nat, n: nat, valueWidth: int, limit: int): int
  {
    if i < n - 1 then 0 else if n > 1 then n * limit - len else valueWidth - len
  }

  /** `'+'`, `width` dashes, `'+'`: the top and bottom border. */
  function Rule(width: int): string
  {
    "+" + Repeat('-', width) + "+"
  }

  /** `'+'`, dashes over the first column, `'+'`, dashes over the second, `'+'`. */
  function Separator(first: int, second: int): string
  {
    "+" + Repeat('-', first) + "+" + Repeat('-', second) + "+"
  }

  /** The title bar: the title right-padded with spaces to `width` (not cut when longer). */
  function TitleLine(title: string, width: int): string
  {
    "|" + title + Repeat(' ', width - |title|) + "|"
  }

  /** `'|'`, the name right-padded to `width`, `'|'`. */
  function NameCell(name: string, width: int): string
  {
    "|" + name + Repeat(' ', width - |name|) + "|"
  }

  /** The lines of every item, item after item. */
  function Flatten<E>(es: seq<E>, lines: E -> seq<string>): seq<string>
  {
    if es == [] then [] else Flatten(es[..|es| - 1], lines) + lines(es[|es| - 1])
  }

  lemma {:induction false} FlattenConcat<E>(a: seq<E>, b: seq<E>, lines: E -> seq<string>)
    ensures Flatten(a + b, lines) == Flatten(a, lines) + Flatten(b, lines)
  {
    if b == [] {
      assert a + b == a;
    } else {
      var b', last := b[..|b| - 1], b[|b| - 1];
      FlattenConcat(a, b', lines);
      FlattenAppendLast(a, b, lines);
      var x, y, z := Flatten(a, lines), Flatten(b', lines), lines(last);
      assert Flatten(b, lines) == y + z;
      assert (x + y) + z == x + (y + z);
    }
  }

  /** The last item of `a + b`, for a non-empty `b`, is the last item of `b`. */
  lemma FlattenAppendLast<E>(a: seq<E>, b: seq<E>, lines: E -> seq<string>)
    requires b != []
    ensures Flatten(a + b, lines) == Flatten(a + b[..|b| - 1], lines) + lines(b[|b| - 1])
  {
    var ab := a + b;
    assert ab[..|ab| - 1] == a + b[..|b| - 1];
  }

  /** One more item adds its lines at the end. */
  lemma FlattenStep<E>(es: seq<E>, lines: E -> seq<string>, k: nat)
    requires k < |es|
    ensures Flatten(es[..k + 1], lines) == Flatten(es[..k], lines) + lines(es[k])
  {
    assert es[..k + 1][..k] == es[..k];
  }

  /** One more item's lines written after the lines of the items before it. */
  lemma FlattenStepAfter<E>(written: seq<string>, es: seq<E>, lines: E -> seq<string>, k: nat)
    requires k < |es|
    ensures written + Flatten(es[..k], lines) + lines(es[k]) == written + Flatten(es[..k + 1], lines)
  {
    FlattenStep(es, lines, k);
  }

  /** Line `j` of item `k` comes right after the lines of the items before it. */
  lemma FlattenAt<E>(es: seq<E>, lines: E -> seq<string>, k: nat, j: nat)
    requires k < |es| && j < |lines(es[k])|
    ensures |Flatten(es[..k], lines)| + j < |Flatten(es, lines)|
    ensures Flatten(es, lines)[|Flatten(es[..k], lines)| + j] == lines(es[k])[j]
  {
    var before, mid, after := es[..k], [es[k]], es[k + 1..];
    assert es == before + mid + after;
    FlattenConcat(before + mid, after, lines);
    FlattenConcat(before, mid, lines);
    assert mid[..0] == [];
    var fb, fm, fa := Flatten(before, lines), lines(es[k]), Flatten(after, lines);
    assert Flatten(es, lines) == fb + fm + fa;
    assert (fb + fm + fa)[|fb| + j] == fm[j];
  }
}
