/**
 * What `dumpObjectMap` writes for a title, an ordered `Map<String, Object>`
 * and the configured `maxLength` (here `limit`): each value is first
 * described by `ClassAndToString` as a type label and a text, then each
 * entry is laid out as a name/type line followed by full-width value lines.
 */
module ObjectTable {
  import opened Wrappers
  import opened BoxLayout
  import opened JavaLang

  /** `ClassAndToString`: the type label and the text shown for a value. */
  datatype Description = Description(className: string, text: string)

  /** One entry of the caller's map: a name and a value that may be null. */
  type RawEntry = (string, Option<JavaObject>)

  /** One entry of the fresh map of descriptions. */
  type Described = (string, Description)

  /**
   * `new ClassAndToString(obj)`: "(n/a)" and "(null)" for null; for an array
   * its class label and `Arrays.toString` of it after a cast to `Object[]`,
   * which throws for an array of a primitive type; otherwise its class label
   * and its own `toString()`.
   */
  function Describe(obj: Option<JavaObject>): (r: Result<Description, JavaException>)
    ensures obj.None? ==> r == Ok(Description("(n/a)", "(null)"))
    ensures r.Err? <==> obj.Some? && obj.value.shape.PrimitiveArray?
    ensures r.Err? ==> r.error == ClassCastException
    ensures obj.Some? && r.Ok? ==> r.value.className == obj.value.classLabel
    ensures obj.Some? && obj.value.shape.ObjectArray? ==> r.Ok? && r.value.text == ArraysToString(obj.value.shape.elements)
    ensures obj.Some? && obj.value.shape.Scalar? ==> r.Ok? && r.value.text == obj.value.text
  {
    match obj
    case None => Ok(Description("(n/a)", "(null)"))
    case Some(o) =>
      match o.shape
      case PrimitiveArray => Err(ClassCastException)
      case ObjectArray(elements) => Ok(Description(o.classLabel, ArraysToString(elements)))
      case Scalar => Ok(Description(o.classLabel, o.text))
  }

  /** The fresh map of descriptions, built in the input's order; the first value that cannot be described aborts the dump. */
  function DescribeAll(objMap: seq<RawEntry>): Result<seq<Described>, JavaException>
  {
    if objMap == [] then Ok([])
    else
      match DescribeAll(objMap[..|objMap| - 1])
      case Err(e) => Err(e)
      case Ok(prev) =>
        match Describe(objMap[|objMap| - 1].1)
        case Err(e) => Err(e)
        case Ok(d) => Ok(prev + [(objMap[|objMap| - 1].0, d)])
  }

  /**
   * Describing keeps the names and their order and describes each value on
   * its own; it fails exactly when some value cannot be described, and then
   * with the exception of the first such value.
   */
  lemma {:induction false} DescribeAllSpec(objMap: seq<RawEntry>)
    ensures DescribeAll(objMap).Ok? ==>
      var ds := DescribeAll(objMap).value;
      |ds| == |objMap| && forall i :: 0 <= i < |objMap| ==> ds[i].0 == objMap[i].0 && Describe(objMap[i].1) == Ok(ds[i].1)
    ensures DescribeAll(objMap).Err? ==>
      exists i :: 0 <= i < |objMap| && Describe(objMap[i].1) == Err(DescribeAll(objMap).error)
        && forall j :: 0 <= j < i ==> Describe(objMap[j].1).Ok?
    ensures DescribeAll(objMap).Ok? <==> forall i :: 0 <= i < |objMap| ==> Describe(objMap[i].1).Ok?
  {
    if objMap != [] {
      var pre := objMap[..|objMap| - 1];
      DescribeAllSpec(pre);
      assert forall i :: 0 <= i < |pre| ==> pre[i] == objMap[i];
      if DescribeAll(pre).Err? {
        var i :| 0 <= i < |pre| && Describe(pre[i].1) == Err(DescribeAll(pre).error)
          && forall j :: 0 <= j < i ==> Describe(pre[j].1).Ok?;
        assert Describe(objMap[i].1) == Err(DescribeAll(objMap).error);
      } else if Describe(objMap[|objMap| - 1].1).Err? {
        assert forall j :: 0 <= j < |objMap| - 1 ==> Describe(objMap[j].1).Ok?;
      }
    }
  }

  /** Once a value cannot be described, describing further entries does not change the outcome. */
  lemma {:induction false} DescribeAllErrSticks(objMap: seq<RawEntry>, j: nat)
    requires j <= |objMap| && DescribeAll(objMap[..j]).Err?
    ensures DescribeAll(objMap) == DescribeAll(objMap[..j])
    decreases |objMap| - j
  {
    if j == |objMap| {
      assert objMap[..j] == objMap;
    } else {
      var pre := objMap[..|objMap| - 1];
      assert pre[..j] == objMap[..j];
      DescribeAllErrSticks(pre, j);
    }
  }

  function Names(ds: seq<Described>): (r: seq<string>)
    ensures |r| == |ds| && forall i :: 0 <= i < |ds| ==> r[i] == ds[i].0
  {
    seq(|ds|, i requires 0 <= i < |ds| => ds[i].0)
  }

  function Classes(ds: seq<Described>): (r: seq<string>)
    ensures |r| == |ds| && forall i :: 0 <= i < |ds| ==> r[i] == ds[i].1.className
  {
    seq(|ds|, i requires 0 <= i < |ds| => ds[i].1.className)
  }

  function Texts(ds: seq<Described>): (r: seq<string>)
    ensures |r| == |ds| && forall i :: 0 <= i < |ds| ==> r[i] == ds[i].1.text
  {
    seq(|ds|, i requires 0 <= i < |ds| => ds[i].1.text)
  }

  /** `maxNameLen`, `maxClassLen` and `maxValueLen` once the width loop and the reconciliation are done. */
  datatype ObjectLayout = ObjectLayout(nameWidth: int, classWidth: int, valueWidth: int)

  function Layout(title: string, ds: seq<Described>, limit: int): ObjectLayout
  {
    if ds == [] then ObjectLayout(0, 0, |title|)
    else
      var nw := MaxLen(Names(ds));
      var cw := MaxLen(Classes(ds));
      var vw := ClampedWidth(Texts(ds), limit, |title|);
      if nw + cw + 1 > vw then ObjectLayout(nw, cw, nw + cw + 1)
      else ObjectLayout(nw, vw - (nw + 1), vw)
  }

  /** The value width the loop reaches, seeded with the title's length: the limit once any text is longer than it, even below the title's length; otherwise the longer of title and texts. */
  function SeededValueWidth(title: string, ds: seq<Described>, limit: int): int
  {
    if AnyLonger(Texts(ds), limit) then limit else Max(|title|, MaxLen(Texts(ds)))
  }

  /**
   * The widths of a non-empty table: the name column fits the longest name,
   * the type column at least the longest type label, and name column, border
   * and type column together are exactly as wide as the value column, which is
   * the wider of those two columns and the seeded value width.
   */
  lemma LayoutWidths(title: string, ds: seq<Described>, limit: int)
    requires ds != []
    ensures var L := Layout(title, ds, limit);
      && L.nameWidth == MaxLen(Names(ds))
      && L.classWidth >= MaxLen(Classes(ds))
      && L.nameWidth + L.classWidth + 1 == L.valueWidth
      && L.valueWidth == Max(MaxLen(Names(ds)) + MaxLen(Classes(ds)) + 1, SeededValueWidth(title, ds, limit))
  {
    ClampedWidthValue(Texts(ds), limit, |title|);
  }

  /** The name/type line of an entry. */
  function HeaderLine(d: Described, layout: ObjectLayout): string
  {
    NameCell(d.0, layout.nameWidth) + d.1.className + Repeat(' ', layout.classWidth - |d.1.className|) + "|"
  }

  /** Value line `i`: a `'|'`, the value cell, a `'|'`, with no indent under the name column. */
  function ValueLine(text: string, i: nat, valueWidth: int, limit: int): string
    requires limit >= 1 && i < LineCount(|text|, limit)
  {
    "|" + ValueCell(text, i, LineCount(|text|, limit), valueWidth, limit) + "|"
  }

  function ValueLines(text: string, k: nat, valueWidth: int, limit: int): (r: seq<string>)
    requires limit >= 1 && k <= LineCount(|text|, limit)
    ensures |r| == k
  {
    if k == 0 then [] else ValueLines(text, k - 1, valueWidth, limit) + [ValueLine(text, k - 1, valueWidth, limit)]
  }

  /** The lines of one entry: its name/type line, then one blank line for an empty text, otherwise one line per chunk. */
  function EntryLines(d: Described, layout: ObjectLayout, limit: int): (r: seq<string>)
    requires limit >= 1
    ensures |r| == 1 + Max(1, LineCount(|d.1.text|, limit))
  {
    var n := LineCount(|d.1.text|, limit);
    [HeaderLine(d, layout)]
      + if n == 0 then [Repeat(' ', layout.valueWidth) + "|"]
        else ValueLines(d.1.text, n, layout.valueWidth, limit)
  }

  function EntryOf(layout: ObjectLayout, limit: int): Described -> seq<string>
    requires limit >= 1
  {
    (d: Described) => EntryLines(d, layout, limit)
  }

  /** Every line `dumpObjectMap` writes once the descriptions are built. */
  function TableLines(title: string, ds: seq<Described>, limit: int): seq<string>
    requires limit >= 1
  {
    Framed(title, ds, Layout(title, ds, limit), limit)
  }

  /** The heading, the entries and the closing rule, for the widths `L`. */
  function Framed(title: string, ds: seq<Described>, L: ObjectLayout, limit: int): seq<string>
    requires limit >= 1
  {
    [Rule(L.valueWidth), TitleLine(title, L.valueWidth)]
      + if ds == [] then [Rule(L.valueWidth)]
        else [Separator(L.nameWidth, L.classWidth)] + Flatten(ds, EntryOf(L, limit)) + [Rule(L.valueWidth)]
  }

  /** The number of lines the entries take: one name/type line plus max(1, linNum) value lines each. */
  function EntriesLines(ds: seq<Described>, limit: int): nat
    requires limit >= 1
  {
    if ds == [] then 0
    else EntriesLines(ds[..|ds| - 1], limit) + 1 + Max(1, LineCount(|ds[|ds| - 1].1.text|, limit))
  }

  lemma {:induction false} EntriesLength(ds: seq<Described>, layout: ObjectLayout, limit: int)
    requires limit >= 1
    ensures |Flatten(ds, EntryOf(layout, limit))| == EntriesLines(ds, limit)
  {
    if ds != [] {
      EntriesLength(ds[..|ds| - 1], layout, limit);
    }
  }

  /** An empty map gives three lines, each as wide as the title plus its two borders. */
  lemma EmptyMapLines(title: string, limit: int)
    requires limit >= 1
    ensures |TableLines(title, [], limit)| == 3
    ensures TableLines(title, [], limit)[0] == TableLines(title, [], limit)[2] == Rule(|title|)
    ensures TableLines(title, [], limit)[1] == "|" + title + "|"
    ensures forall j :: 0 <= j < 3 ==> |TableLines(title, [], limit)[j]| == |title| + 2
  {
  }

  /** A non-empty map gives four framing lines plus the lines of each entry. */
  lemma TableLineCount(title: string, ds: seq<Described>, limit: int)
    requires limit >= 1
    ensures |TableLines(title, ds, limit)| == if ds == [] then 3 else 4 + EntriesLines(ds, limit)
  {
    EntriesLength(ds, Layout(title, ds, limit), limit);
  }

  /**
   * A non-empty table closes with a full-width rule equal to its top rule,
   * not with a two-column separator; the rules and the separator are
   * `valueWidth + 2` wide, and the title line is as wide only when the title
   * fits, because a negative padding count prints nothing.
   */
  lemma FramingLines(title: string, ds: seq<Described>, limit: int)
    requires limit >= 1 && ds != []
    ensures var lines, L := TableLines(title, ds, limit), Layout(title, ds, limit);
      && lines[|lines| - 1] == lines[0] == Rule(L.valueWidth)
      && |lines[0]| == L.valueWidth + 2
      && |lines[2]| == L.valueWidth + 2
      && |lines[1]| == Max(L.valueWidth, |title|) + 2
      && (|title| >= L.valueWidth ==> lines[1] == "|" + title + "|")
  {
    LayoutWidths(title, ds, limit);
    TableLineCount(title, ds, limit);
  }

  /**
   * A title longer than the value column is printed unpadded, so the title
   * line is wider than the block: title "Session Attributes", limit 3 and an
   * entry a of type C and text "hello" give a 5-character top rule and a
   * 20-character title line.
   */
  lemma LongTitleOverhangs()
    ensures var lines := TableLines("Session Attributes", [("a", Description("C", "hello"))], 3);
      |lines[0]| == 5 && |lines[1]| == 20
  {
    var ds: seq<Described> := [("a", Description("C", "hello"))];
    LayoutWidths("Session Attributes", ds, 3);
    assert Names(ds) == ["a"] && Classes(ds) == ["C"] && Texts(ds) == ["hello"];
    assert ["a"][..0] == [] && ["C"][..0] == [];
    assert AnyLonger(Texts(ds), 3) by { assert |Texts(ds)[0]| > 3; }
    FramingLines("Session Attributes", ds, 3);
  }

  lemma {:induction false} ValueLinesAt(text: string, k: nat, valueWidth: int, limit: int, i: nat)
    requires limit >= 1 && k <= LineCount(|text|, limit) && i < k
    ensures ValueLines(text, k, valueWidth, limit)[i] == ValueLine(text, i, valueWidth, limit)
  {
    if i < k - 1 {
      ValueLinesAt(text, k - 1, valueWidth, limit, i);
    }
  }

  /**
   * The lines of one entry: the name/type line is `valueWidth + 2` wide once
   * the layout is reconciled; an empty text gives `valueWidth` spaces and a
   * `'|'`, with no leading `'|'`; otherwise value line `i` is `'|'`, chunk `i`
   * of the text, padding spaces and `'|'`.
   */
  lemma EntryLinesShape(d: Described, layout: ObjectLayout, limit: int, i: nat)
    requires limit >= 1
    requires |d.0| <= layout.nameWidth && |d.1.className| <= layout.classWidth
    requires i < LineCount(|d.1.text|, limit) || i == 0
    ensures EntryLines(d, layout, limit)[0] == HeaderLine(d, layout)
    ensures |HeaderLine(d, layout)| == layout.nameWidth + layout.classWidth + 3
    ensures d.1.text == [] ==> EntryLines(d, layout, limit)[1] == Repeat(' ', layout.valueWidth) + "|"
    ensures i < LineCount(|d.1.text|, limit) ==>
      EntryLines(d, layout, limit)[1 + i]
        == "|" + Chunk(d.1.text, i, limit) + Repeat(' ', CellPad(|d.1.text|, i, LineCount(|d.1.text|, limit), layout.valueWidth, limit)) + "|"
  {
    var text := d.1.text;
    var n := LineCount(|text|, limit);
    LineCountBounds(|text|, limit);
    if i < n {
      ValueLinesAt(text, n, layout.valueWidth, limit, i);
      ValueCellIsChunk(text, i, n, layout.valueWidth, limit);
    }
  }

  /** Line `3 + x` of a non-empty table is line `x` of its entries. */
  lemma TableLineIsEntryLine(title: string, ds: seq<Described>, limit: int, x: nat)
    requires limit >= 1 && ds != [] && x < EntriesLines(ds, limit)
    ensures 3 + x < |TableLines(title, ds, limit)|
    ensures x < |Flatten(ds, EntryOf(Layout(title, ds, limit), limit))|
    ensures TableLines(title, ds, limit)[3 + x] == Flatten(ds, EntryOf(Layout(title, ds, limit), limit))[x]
  {
    EntriesLength(ds, Layout(title, ds, limit), limit);
    FramedEntryLine(title, ds, Layout(title, ds, limit), limit, x);
  }

  lemma FramedEntryLine(title: string, ds: seq<Described>, L: ObjectLayout, limit: int, x: nat)
    requires limit >= 1 && ds != [] && x < |Flatten(ds, EntryOf(L, limit))|
    ensures 3 + x < |Framed(title, ds, L, limit)|
    ensures Framed(title, ds, L, limit)[3 + x] == Flatten(ds, EntryOf(L, limit))[x]
  {
    var sep := Separator(L.nameWidth, L.classWidth);
    var head, entries := [Rule(L.valueWidth), TitleLine(title, L.valueWidth)], Flatten(ds, EntryOf(L, limit));
    var rest := [sep] + entries + [Rule(L.valueWidth)];
    assert Framed(title, ds, L, limit) == head + rest;
    assert rest[1 + x] == entries[x];
  }

  /** Entries appear in the map's order: the lines of entry `k` follow the three heading lines and the lines of the entries before it. */
  lemma EntryPlacement(title: string, ds: seq<Described>, limit: int, k: nat, j: nat)
    requires limit >= 1 && k < |ds|
    requires j < 1 + Max(1, LineCount(|ds[k].1.text|, limit))
    ensures var L := Layout(title, ds, limit);
      var lines := TableLines(title, ds, limit);
      && 3 + EntriesLines(ds[..k], limit) + j < |lines|
      && lines[3 + EntriesLines(ds[..k], limit) + j] == EntryLines(ds[k], L, limit)[j]
  {
    var L := Layout(title, ds, limit);
    EntryInFlatten(ds, L, limit, k, j);
    EntriesLength(ds, L, limit);
    TableLineIsEntryLine(title, ds, limit, EntriesLines(ds[..k], limit) + j);
  }

  /** Within the entries' lines, line `j` of entry `k` follows the lines of the entries before it. */
  lemma EntryInFlatten(ds: seq<Described>, layout: ObjectLayout, limit: int, k: nat, j: nat)
    requires limit >= 1 && k < |ds|
    requires j < 1 + Max(1, LineCount(|ds[k].1.text|, limit))
    ensures EntriesLines(ds[..k], limit) + j < |Flatten(ds, EntryOf(layout, limit))|
    ensures Flatten(ds, EntryOf(layout, limit))[EntriesLines(ds[..k], limit) + j] == EntryLines(ds[k], layout, limit)[j]
  {
    var f := EntryOf(layout, limit);
    var before := Flatten(ds[..k], f);
    EntriesLength(ds[..k], layout, limit);
    assert |before| == EntriesLines(ds[..k], limit);
    var entry := f(ds[k]);
    assert entry == EntryLines(ds[k], layout, limit);
    FlattenAt(ds, f, k, j);
    assert Flatten(ds, f)[|before| + j] == entry[j];
  }

  /**
   * The widths of an entry's lines under a reconciled layout: the name/type
   * line and a single value line are `valueWidth + 2` wide, the blank line
   * for an empty text `valueWidth + 1`, and the lines of a wrapped text
   * `limit + 2`.
   */
  lemma EntryLineLengths(d: Described, layout: ObjectLayout, limit: int, j: nat)
    requires limit >= 1
    requires |d.0| <= layout.nameWidth && |d.1.className| <= layout.classWidth
    requires layout.nameWidth + layout.classWidth + 1 == layout.valueWidth
    requires LineCount(|d.1.text|, limit) <= 1 ==> |d.1.text| <= layout.valueWidth
    requires j < 1 + Max(1, LineCount(|d.1.text|, limit))
    ensures var n, line := LineCount(|d.1.text|, limit), EntryLines(d, layout, limit)[j];
      && (j == 0 ==> |line| == layout.valueWidth + 2)
      && (j > 0 && n == 0 ==> |line| == layout.valueWidth + 1)
      && (j > 0 && n == 1 ==> |line| == layout.valueWidth + 2)
      && (j > 0 && n > 1 ==> |line| == limit + 2)
  {
    var text := d.1.text;
    var n := LineCount(|text|, limit);
    EntryLinesShape(d, layout, limit, 0);
    if j > 0 && n > 0 {
      var entry := EntryLines(d, layout, limit);
      assert entry[j] == ValueLines(text, n, layout.valueWidth, limit)[j - 1];
      ValueLinesAt(text, n, layout.valueWidth, limit, j - 1);
      CellWidth(text, j - 1, n, layout.valueWidth, limit);
    }
  }

  /** The widths of entry `k`'s lines where they sit in the table. */
  lemma EntryLineWidths(title: string, ds: seq<Described>, limit: int, k: nat, j: nat)
    requires limit >= 1 && k < |ds|
    requires j < 1 + Max(1, LineCount(|ds[k].1.text|, limit))
    ensures var L := Layout(title, ds, limit);
      var lines := TableLines(title, ds, limit);
      var at := 3 + EntriesLines(ds[..k], limit) + j;
      var n := LineCount(|ds[k].1.text|, limit);
      && at < |lines|
      && (j == 0 ==> |lines[at]| == L.valueWidth + 2)
      && (j > 0 && n == 0 ==> |lines[at]| == L.valueWidth + 1)
      && (j > 0 && n == 1 ==> |lines[at]| == L.valueWidth + 2)
      && (j > 0 && n > 1 ==> |lines[at]| == limit + 2)
  {
    var L := Layout(title, ds, limit);
    var d := ds[k];
    EntryPlacement(title, ds, limit, k, j);
    LayoutWidths(title, ds, limit);
    MaxLenIsLongest(Names(ds));
    MaxLenIsLongest(Classes(ds));
    assert Names(ds)[k] == d.0 && Classes(ds)[k] == d.1.className && Texts(ds)[k] == d.1.text;
    if LineCount(|d.1.text|, limit) <= 1 {
      LineCountBounds(|d.1.text|, limit);
      ClampedWidthValue(Texts(ds), limit, |title|);
      MaxLenIsLongest(Texts(ds));
    }
    EntryLineLengths(d, L, limit, j);
  }
}
