/**
 * What `dumpStringMap` writes for a title, an ordered `Map<String, String>`
 * and the configured `maxLength` (here `limit`), as a sequence of physical
 * lines; and what is true of those lines.
 */
module StringTable {
  import opened Wrappers
  import opened BoxLayout

  /** One entry of the caller's map: a name and a value that may be null. */
  type RawEntry = (string, Option<string>)

  /** One entry once its value is known to be non-null. */
  type Entry = (string, string)

  function NullToText(v: Option<string>): string
  {
    match v
    case None => "(null)"
    case Some(s) => s
  }

  /** The caller's map after the renderer has overwritten each null value with "(null)", in place. */
  function Normalized(es: seq<RawEntry>): (r: seq<RawEntry>)
    ensures |r| == |es|
    ensures forall i :: 0 <= i < |es| ==> r[i].0 == es[i].0 && r[i].1.Some?
    ensures forall i :: 0 <= i < |es| && es[i].1.Some? ==> r[i] == es[i]
    ensures forall i :: 0 <= i < |es| && es[i].1.None? ==> r[i].1.value == "(null)"
  {
    seq(|es|, i requires 0 <= i < |es| => (es[i].0, Some(NullToText(es[i].1))))
  }

  /** The entries as the layout sees them, with "(null)" for a null value. */
  function Plain(es: seq<RawEntry>): (r: seq<Entry>)
    ensures |r| == |es|
  {
    seq(|es|, i requires 0 <= i < |es| => (es[i].0, NullToText(es[i].1)))
  }

  /** After the overwrite, every value is present and is what the layout sees. */
  lemma NormalizedAgreesWithPlain(es: seq<RawEntry>)
    ensures forall i :: 0 <= i < |es| ==> Normalized(es)[i] == (Plain(es)[i].0, Some(Plain(es)[i].1))
  {
  }

  function Names(es: seq<Entry>): (r: seq<string>)
    ensures |r| == |es| && forall i :: 0 <= i < |es| ==> r[i] == es[i].0
  {
    seq(|es|, i requires 0 <= i < |es| => es[i].0)
  }

  function Values(es: seq<Entry>): (r: seq<string>)
    ensures |r| == |es| && forall i :: 0 <= i < |es| ==> r[i] == es[i].1
  {
    seq(|es|, i requires 0 <= i < |es| => es[i].1)
  }

  /** `maxNameLen`, `maxValueLen` and `totalLen` once the width loop and the reconciliation with the title are done. */
  datatype StringLayout = StringLayout(nameWidth: int, valueWidth: int, totalWidth: int)

  function Layout(title: string, es: seq<Entry>, limit: int): StringLayout
  {
    if es == [] then StringLayout(0, 0, |title|)
    else
      var nw := MaxLen(Names(es));
      var vw := ClampedWidth(Values(es), limit, 0);
      if nw + vw + 1 > |title| then StringLayout(nw, vw, nw + vw + 1)
      else StringLayout(nw, |title| - (nw + 1), |title|)
  }

  /**
   * The widths of a non-empty table: the name column is as wide as the
   * longest name, the two columns and the border between them fill the block
   * exactly, and the block is as wide as the title or as the longest name plus
   * the value width min(limit, longest value), whichever is wider.
   */
  lemma LayoutWidths(title: string, es: seq<Entry>, limit: nat)
    requires es != []
    ensures Layout(title, es, limit).nameWidth == MaxLen(Names(es))
    ensures Layout(title, es, limit).nameWidth + Layout(title, es, limit).valueWidth + 1 == Layout(title, es, limit).totalWidth
    ensures Layout(title, es, limit).totalWidth == Max(|title|, MaxLen(Names(es)) + Min(limit, MaxLen(Values(es))) + 1)
    ensures Layout(title, es, limit).valueWidth >= Min(limit, MaxLen(Values(es)))
  {
    StringValueWidthIsClampedMax(Values(es), limit);
  }

  /** Physical line `i` of an entry: its name on the first line, a blank name column on the others. */
  function RowLine(name: string, v: string, i: nat, nameWidth: int, valueWidth: int, limit: int): string
    requires limit >= 1 && i < LineCount(|v|, limit)
  {
    (if i == 0 then NameCell(name, nameWidth) else NameCell("", nameWidth))
      + ValueCell(v, i, LineCount(|v|, limit), valueWidth, limit) + "|"
  }

  /** The first `k` physical lines of an entry. */
  function RowLines(name: string, v: string, k: nat, nameWidth: int, valueWidth: int, limit: int): (r: seq<string>)
    requires limit >= 1 && k <= LineCount(|v|, limit)
    ensures |r| == k
  {
    seq(k, i requires 0 <= i < k => RowLine(name, v, i, nameWidth, valueWidth, limit))
  }

  /** All physical lines of one entry: one blank-padded line for an empty value, otherwise one line per chunk. */
  function Row(name: string, v: string, nameWidth: int, valueWidth: int, limit: int): (r: seq<string>)
    requires limit >= 1
    ensures |r| == Max(1, LineCount(|v|, limit))
  {
    var n := LineCount(|v|, limit);
    if n == 0 then [NameCell(name, nameWidth) + Repeat(' ', valueWidth) + "|"]
    else RowLines(name, v, n, nameWidth, valueWidth, limit)
  }

  /** The lines of one entry, as a function of the entry, for a fixed layout. */
  function RowOf(layout: StringLayout, limit: int): Entry -> seq<string>
    requires limit >= 1
  {
    (e: Entry) => Row(e.0, e.1, layout.nameWidth, layout.valueWidth, limit)
  }

  /** Every line `dumpStringMap` writes. */
  function TableLines(title: string, es: seq<Entry>, limit: int): seq<string>
    requires limit >= 1
  {
    var L := Layout(title, es, limit);
    [Rule(L.totalWidth), TitleLine(title, L.totalWidth)]
      + if es == [] then [Rule(L.totalWidth)]
        else [Separator(L.nameWidth, L.valueWidth)] + Flatten(es, RowOf(L, limit)) + [Separator(L.nameWidth, L.valueWidth)]
  }

  /** The number of physical lines the entries' values take: max(1, linNum) each. */
  function PhysicalLines(es: seq<Entry>, limit: int): nat
    requires limit >= 1
  {
    if es == [] then 0
    else PhysicalLines(es[..|es| - 1], limit) + Max(1, LineCount(|es[|es| - 1].1|, limit))
  }

  lemma {:induction false} RowsLength(es: seq<Entry>, layout: StringLayout, limit: int)
    requires limit >= 1
    ensures |Flatten(es, RowOf(layout, limit))| == PhysicalLines(es, limit)
  {
    if es != [] {
      RowsLength(es[..|es| - 1], layout, limit);
    }
  }

  /** An empty map gives exactly three lines: the top rule, the bare title, and a bottom rule equal to the top one. */
  lemma EmptyMapLines(title: string, limit: int)
    requires limit >= 1
    ensures |TableLines(title, [], limit)| == 3
    ensures TableLines(title, [], limit)[0] == TableLines(title, [], limit)[2] == Rule(|title|)
    ensures TableLines(title, [], limit)[1] == "|" + title + "|"
    ensures forall j :: 0 <= j < 3 ==> |TableLines(title, [], limit)[j]| == |title| + 2
  {
  }

  /** A non-empty map gives four framing lines plus max(1, linNum) lines per entry. */
  lemma TableLineCount(title: string, es: seq<Entry>, limit: int)
    requires limit >= 1
    ensures |TableLines(title, es, limit)| == if es == [] then 3 else 4 + PhysicalLines(es, limit)
  {
    RowsLength(es, Layout(title, es, limit), limit);
  }

  /** The top rule, the title line and the two separators all have the block's width, totalLen + 2. */
  lemma FramingWidths(title: string, es: seq<Entry>, limit: nat)
    requires limit >= 1 && es != []
    ensures var lines, L := TableLines(title, es, limit), Layout(title, es, limit);
      && |lines[0]| == L.totalWidth + 2
      && |lines[1]| == L.totalWidth + 2
      && |lines[2]| == L.totalWidth + 2
      && |lines[|lines| - 1]| == L.totalWidth + 2
  {
    LayoutWidths(title, es, limit);
    TableLineCount(title, es, limit);
  }

  lemma RowLinesAt(name: string, v: string, k: nat, nameWidth: int, valueWidth: int, limit: int, i: nat)
    requires limit >= 1 && k <= LineCount(|v|, limit) && i < k
    ensures RowLines(name, v, k, nameWidth, valueWidth, limit)[i] == RowLine(name, v, i, nameWidth, valueWidth, limit)
  {
  }

  /** One more physical line extends the lines written so far. */
  lemma RowLinesSnoc(name: string, v: string, k: nat, nameWidth: int, valueWidth: int, limit: int)
    requires limit >= 1 && k < LineCount(|v|, limit)
    ensures RowLines(name, v, k + 1, nameWidth, valueWidth, limit)
         == RowLines(name, v, k, nameWidth, valueWidth, limit) + [RowLine(name, v, k, nameWidth, valueWidth, limit)]
  {
    var longer := RowLines(name, v, k + 1, nameWidth, valueWidth, limit);
    var shorter := RowLines(name, v, k, nameWidth, valueWidth, limit);
    assert forall i :: 0 <= i < k ==> longer[i] == shorter[i];
  }

  /**
   * Physical line `i` of a wrapped value holds chunk `i` of the value,
   * value[i*limit .. min((i+1)*limit, len)), followed only by padding
   * spaces; together with `ChunksRoundTrip` the chunks in order spell the
   * value.
   */
  lemma RowHoldsChunk(name: string, v: string, nameWidth: int, valueWidth: int, limit: int, i: nat)
    requires limit >= 1 && i < LineCount(|v|, limit)
    ensures Row(name, v, nameWidth, valueWidth, limit)[i]
        == (if i == 0 then NameCell(name, nameWidth) else NameCell("", nameWidth))
           + Chunk(v, i, limit) + Repeat(' ', CellPad(|v|, i, LineCount(|v|, limit), valueWidth, limit)) + "|"
  {
    var n := LineCount(|v|, limit);
    RowLinesAt(name, v, n, nameWidth, valueWidth, limit, i);
    ValueCellIsChunk(v, i, n, valueWidth, limit);
  }

  /**
   * Widths of an entry's lines: an empty or single-line value fills the value
   * column (`nameWidth + valueWidth + 3`), but a wrapped value's lines are
   * `nameWidth + limit + 3` wide, whatever the value column's width.
   */
  lemma RowWidths(name: string, v: string, nameWidth: int, valueWidth: int, limit: int, i: nat)
    requires limit >= 1 && |name| <= nameWidth && 0 <= valueWidth
    requires LineCount(|v|, limit) <= 1 ==> |v| <= valueWidth
    requires i < Max(1, LineCount(|v|, limit))
    ensures LineCount(|v|, limit) <= 1 ==> |Row(name, v, nameWidth, valueWidth, limit)[i]| == nameWidth + valueWidth + 3
    ensures LineCount(|v|, limit) > 1 ==> |Row(name, v, nameWidth, valueWidth, limit)[i]| == nameWidth + limit + 3
  {
    var n := LineCount(|v|, limit);
    if n > 0 {
      RowLinesAt(name, v, n, nameWidth, valueWidth, limit, i);
      CellWidth(v, i, n, valueWidth, limit);
    }
  }

  /** Line `3 + x` of a non-empty table is line `x` of its rows. */
  lemma TableLineIsRowLine(title: string, es: seq<Entry>, limit: int, x: nat)
    requires limit >= 1 && es != [] && x < PhysicalLines(es, limit)
    ensures 3 + x < |TableLines(title, es, limit)|
    ensures x < |Flatten(es, RowOf(Layout(title, es, limit), limit))|
    ensures TableLines(title, es, limit)[3 + x] == Flatten(es, RowOf(Layout(title, es, limit), limit))[x]
  {
    var L := Layout(title, es, limit);
    var sep := Separator(L.nameWidth, L.valueWidth);
    var head, rows := [Rule(L.totalWidth), TitleLine(title, L.totalWidth)], Flatten(es, RowOf(L, limit));
    assert x < |rows| by { RowsLength(es, L, limit); }
    var rest := [sep] + rows + [sep];
    assert TableLines(title, es, limit) == head + rest;
    assert rest[1 + x] == rows[x];
  }

  /**
   * Entries appear in the map's iteration order: the lines of entry `k`
   * start right after the three heading lines and the lines of the entries
   * before it.
   */
  lemma EntryPlacement(title: string, es: seq<Entry>, limit: int, k: nat, j: nat)
    requires limit >= 1 && k < |es|
    requires j < Max(1, LineCount(|es[k].1|, limit))
    ensures var L := Layout(title, es, limit);
      var lines := TableLines(title, es, limit);
      && 3 + PhysicalLines(es[..k], limit) + j < |lines|
      && lines[3 + PhysicalLines(es[..k], limit) + j] == Row(es[k].0, es[k].1, L.nameWidth, L.valueWidth, limit)[j]
  {
    var L := Layout(title, es, limit);
    RowInFlatten(es, L, limit, k, j);
    RowsLength(es, L, limit);
    TableLineIsRowLine(title, es, limit, PhysicalLines(es[..k], limit) + j);
  }

  /** Line `j` of entry `k` within the rows of all entries. */
  lemma RowInFlatten(es: seq<Entry>, layout: StringLayout, limit: int, k: nat, j: nat)
    requires limit >= 1 && k < |es|
    requires j < Max(1, LineCount(|es[k].1|, limit))
    ensures PhysicalLines(es[..k], limit) + j < |Flatten(es, RowOf(layout, limit))|
    ensures Flatten(es, RowOf(layout, limit))[PhysicalLines(es[..k], limit) + j] == Row(es[k].0, es[k].1, layout.nameWidth, layout.valueWidth, limit)[j]
  {
    var f := RowOf(layout, limit);
    var before := Flatten(es[..k], f);
    RowsLength(es[..k], layout, limit);
    assert |before| == PhysicalLines(es[..k], limit);
    var row := f(es[k]);
    assert row == Row(es[k].0, es[k].1, layout.nameWidth, layout.valueWidth, limit);
    FlattenAt(es, f, k, j);
    assert Flatten(es, f)[|before| + j] == row[j];
  }

  /**
   * The width of every line of entry `k`: a value of at most one chunk gives a
   * line as wide as the block (totalLen + 2); a wrapped value gives lines
   * `nameWidth + limit + 3` wide.
   */
  lemma EntryLineWidths(title: string, es: seq<Entry>, limit: nat, k: nat, j: nat)
    requires limit >= 1 && k < |es|
    requires j < Max(1, LineCount(|es[k].1|, limit))
    ensures var L := Layout(title, es, limit);
      var lines := TableLines(title, es, limit);
      var at := 3 + PhysicalLines(es[..k], limit) + j;
      && at < |lines|
      && (LineCount(|es[k].1|, limit) <= 1 ==> |lines[at]| == L.totalWidth + 2)
      && (LineCount(|es[k].1|, limit) > 1 ==> |lines[at]| == L.nameWidth + limit + 3)
  {
    var L := Layout(title, es, limit);
    EntryPlacement(title, es, limit, k, j);
    LayoutWidths(title, es, limit);
    MaxLenIsLongest(Names(es));
    MaxLenIsLongest(Values(es));
    assert Names(es)[k] == es[k].0;
    assert Values(es)[k] == es[k].1;
    LineCountBounds(|es[k].1|, limit);
    RowWidths(es[k].0, es[k].1, L.nameWidth, L.valueWidth, limit, j);
  }

  /**
   * The block is not always aligned: when the title widens the value column,
   * a wrapped value's lines are narrower than the block. Title "Parameters",
   * limit 3 and the entry a=hello give a 12-character top rule but a
   * 7-character first row.
   */
  lemma WrappedRowNarrowerThanBlock()
    ensures var lines := TableLines("Parameters", [("a", "hello")], 3);
      |lines[0]| == 12 && |lines[3]| == 7
  {
    var es: seq<Entry> := [("a", "hello")];
    LayoutWidths("Parameters", es, 3);
    assert MaxLen(Names(es)) == 1 && MaxLen(Values(es)) == 5 by {
      assert Names(es) == ["a"];
      assert Values(es) == ["hello"];
      assert ["a"][..0] == [] && ["hello"][..0] == [];
    }
    assert es[..0] == [];
    assert LineCount(5, 3) == 2;
    EntryLineWidths("Parameters", es, 3, 0, 0);
    FramingWidths("Parameters", es, 3);
  }
}
