/**
 * The renderer itself, step by step as the filters run it: a `PrintWriter`
 * that collects finished lines, `printChar`, and `dumpStringMap` and
 * `dumpObjectMap` with their width loops and their wrapping loops. Each
 * method is proved to write exactly the lines that `StringTable` and
 * `ObjectTable` describe.
 */
module DumpRenderer {
  import opened Wrappers
  import opened BoxLayout
  import opened JavaLang
  import StringTable
  import ObjectTable

  /** The `PrintWriter` a dump goes to: the lines ended so far and the line being written. */
  class Writer {
    var lines: seq<string>
    var pending: string

    constructor ()
      ensures lines == [] && pending == ""
    {
      lines := [];
      pending := "";
    }

    /** `print`: extends the current line. */
    method Print(s: string)
      modifies this
      ensures lines == old(lines) && pending == old(pending) + s
    {
      pending := pending + s;
    }

    /** `println`: extends the current line and ends it. */
    method Println(s: string)
      modifies this
      ensures lines == old(lines) + [old(pending) + s] && pending == ""
    {
      lines := lines + [pending + s];
      pending := "";
    }
  }

  /** `printChar`: prints `ch` `repeat` times, and nothing when `repeat` is not positive. */
  method PrintChar(w: Writer, ch: char, repeat: int)
    modifies w
    ensures w.lines == old(w.lines) && w.pending == old(w.pending) + Repeat(ch, repeat)
  {
    var i := 0;
    while i < repeat
      invariant 0 <= i <= Max(repeat, 0)
      invariant w.lines == old(w.lines) && w.pending == old(w.pending) + Repeat(ch, i)
    {
      w.Print([ch]);
      i := i + 1;
    }
  }

  /** `linNum`: the quotient, plus one for a remainder. */
  method CountLines(len: nat, limit: int) returns (lineCount: nat)
    requires limit >= 1
    ensures lineCount == LineCount(len, limit)
  {
    lineCount := len / limit;
    if len % limit != 0 {
      lineCount := lineCount + 1;
    }
  }

  /** Writing `t` line by line after a partly written line finishes that line with `t[0]`. */
  lemma FirstLineJoinsPending(lines0: seq<string>, pending0: string, t: seq<string>)
    requires |t| >= 2
    ensures lines0 + [pending0 + t[0], t[1]] + t[2..] == lines0 + [pending0 + t[0]] + t[1..]
  {
    assert t[1..] == [t[1]] + t[2..];
  }

  /** `'+'`, `width` dashes, `'+'`, ending the line. */
  method PrintRule(w: Writer, width: int)
    modifies w
    ensures w.lines == old(w.lines) + [old(w.pending) + Rule(width)] && w.pending == ""
    ensures old(w.pending) == "" ==> w.lines == old(w.lines) + [Rule(width)]
  {
    ghost var p := w.pending;
    w.Print("+");
    PrintChar(w, '-', width);
    assert w.pending == p + "+" + Repeat('-', width);
    w.Println("+");
    assert p + "+" + Repeat('-', width) + "+" == p + Rule(width);
    assert "" + Rule(width) == Rule(width);
  }

  /** The title bar padded to `width`, ending the line. */
  method PrintTitleLine(w: Writer, title: string, width: int)
    requires w.pending == ""
    modifies w
    ensures w.lines == old(w.lines) + [TitleLine(title, width)] && w.pending == ""
  {
    w.Print("|");
    w.Print(title);
    PrintChar(w, ' ', width - |title|);
    assert w.pending == "|" + title + Repeat(' ', width - |title|);
    w.Println("|");
  }

  /** The top rule and the title bar, both `width` wide inside their borders. */
  method PrintHeading(w: Writer, title: string, width: int)
    modifies w
    ensures w.lines == old(w.lines) + [old(w.pending) + Rule(width), TitleLine(title, width)] && w.pending == ""
  {
    PrintRule(w, width);
    PrintTitleLine(w, title, width);
  }

  /** The two-column separator, ending the line. */
  method PrintSeparator(w: Writer, first: int, second: int)
    requires w.pending == ""
    modifies w
    ensures w.lines == old(w.lines) + [Separator(first, second)] && w.pending == ""
  {
    w.Print("+");
    PrintChar(w, '-', first);
    w.Print("+");
    PrintChar(w, '-', second);
    assert w.pending == "+" + Repeat('-', first) + "+" + Repeat('-', second);
    w.Println("+");
  }

  /** `'|'`, the name padded to `width`, `'|'`, continuing the line. */
  method PrintNameCell(w: Writer, name: string, width: int)
    modifies w
    ensures w.lines == old(w.lines) && w.pending == old(w.pending) + NameCell(name, width)
  {
    w.Print("|");
    w.Print(name);
    PrintChar(w, ' ', width - |name|);
    w.Print("|");
  }

  /** The value cell of line `i` of a value wrapped into `n` lines, and the closing `'|'`, ending the line. */
  method PrintValueCell(w: Writer, v: string, i: nat, n: nat, valueWidth: int, limit: int)
    requires limit >= 1 && n == LineCount(|v|, limit) && i < n
    modifies w
    ensures w.lines == old(w.lines) + [old(w.pending) + ValueCell(v, i, n, valueWidth, limit) + "|"] && w.pending == ""
  {
    if i < n - 1 {
      InnerPieceInside(|v|, limit, i);
      assert (i + 1) * limit == i * limit + limit;
      w.Print(v[i * limit..(i + 1) * limit]);
      w.Println("|");
    } else if n > 1 {
      LastPieceBounds(|v|, limit);
      ghost var p := w.pending;
      w.Print(v[i * limit..]);
      PrintChar(w, ' ', (i + 1) * limit - |v|);
      assert w.pending == p + (v[i * limit..] + Repeat(' ', (i + 1) * limit - |v|));
      w.Println("|");
    } else {
      ghost var p := w.pending;
      w.Print(v);
      PrintChar(w, ' ', valueWidth - |v|);
      assert w.pending == p + (v + Repeat(' ', valueWidth - |v|));
      w.Println("|");
    }
  }

  /** The caller's `Map<String, String>`, whose null values the string dump overwrites. */
  class StringMap {
    var entries: seq<StringTable.RawEntry>

    constructor (entries: seq<StringTable.RawEntry>)
      ensures this.entries == entries
    {
      this.entries := entries;
    }
  }

  /**
   * The first loop of `dumpStringMap`: overwrites each null value with
   * "(null)" and computes the column widths, then reconciles them with the
   * title.
   */
  method StringWidths(sm: StringMap, title: string, limit: int) returns (nameWidth: int, valueWidth: int, totalWidth: int)
    modifies sm
    ensures sm.entries == StringTable.Normalized(old(sm.entries))
    ensures StringTable.StringLayout(nameWidth, valueWidth, totalWidth) == StringTable.Layout(title, StringTable.Plain(old(sm.entries)), limit)
  {
    nameWidth, valueWidth, totalWidth := 0, 0, |title|;
    if |sm.entries| > 0 {
      nameWidth, valueWidth := MeasureStringEntries(sm, limit);
      if nameWidth + valueWidth + 1 > totalWidth {
        totalWidth := nameWidth + valueWidth + 1;
      } else {
        valueWidth := totalWidth - (nameWidth + 1);
      }
    } else {
      assert sm.entries == StringTable.Normalized(sm.entries);
    }
  }

  /** The entry loop of the width pass of `dumpStringMap`: overwrites null values with "(null)" and measures both columns. */
  method MeasureStringEntries(sm: StringMap, limit: int) returns (nameWidth: int, valueWidth: int)
    modifies sm
    ensures sm.entries == StringTable.Normalized(old(sm.entries))
    ensures nameWidth == MaxLen(StringTable.Names(StringTable.Plain(old(sm.entries))))
    ensures valueWidth == ClampedWidth(StringTable.Values(StringTable.Plain(old(sm.entries))), limit, 0)
  {
    ghost var es := StringTable.Plain(sm.entries);
    ghost var normal := StringTable.Normalized(sm.entries);
    ghost var names, values := StringTable.Names(es), StringTable.Values(es);
    nameWidth, valueWidth := 0, 0;
    var j := 0;
    while j < |sm.entries|
      invariant 0 <= j <= |sm.entries| == |old(sm.entries)|
      invariant forall i :: 0 <= i < j ==> sm.entries[i] == normal[i]
      invariant forall i :: j <= i < |sm.entries| ==> sm.entries[i] == old(sm.entries)[i]
      invariant nameWidth == MaxLen(names[..j])
      invariant valueWidth == ClampedWidth(values[..j], limit, 0)
    {
      NormalizeEntry(sm, j);
      var name, value := sm.entries[j].0, sm.entries[j].1.value;
      assert name == names[j] && value == values[j];
      WidthsStep(names, j, limit, 0);
      WidthsStep(values, j, limit, 0);
      if |name| > nameWidth {
        nameWidth := |name|;
      }
      if |value| <= limit && |value| > valueWidth {
        valueWidth := |value|;
      } else if |value| > limit {
        valueWidth := limit;
      }
      j := j + 1;
    }
    assert names[..j] == names && values[..j] == values;
    assert sm.entries == normal;
  }

  /** Overwrites a null value at index `j` with "(null)". */
  method NormalizeEntry(sm: StringMap, j: nat)
    requires j < |sm.entries|
    modifies sm
    ensures sm.entries == old(sm.entries)[j := (old(sm.entries)[j].0, Some(StringTable.NullToText(old(sm.entries)[j].1)))]
  {
    if sm.entries[j].1.None? {
      sm.entries := sm.entries[j := (sm.entries[j].0, Some("(null)"))];
    }
  }

  /** The physical lines of one entry of `dumpStringMap`, starting on a fresh line. */
  method PrintStringRow(w: Writer, name: string, v: string, nameWidth: int, valueWidth: int, limit: int)
    requires limit >= 1 && w.pending == ""
    modifies w
    ensures w.lines == old(w.lines) + StringTable.Row(name, v, nameWidth, valueWidth, limit)
    ensures w.pending == ""
  {
    PrintNameCell(w, name, nameWidth);
    var lineCount := CountLines(|v|, limit);
    if lineCount == 0 {
      PrintChar(w, ' ', valueWidth);
      assert w.pending == NameCell(name, nameWidth) + Repeat(' ', valueWidth);
      w.Println("|");
    } else {
      var i := 0;
      while i < lineCount
        invariant 0 <= i <= lineCount
        invariant w.lines == old(w.lines) + StringTable.RowLines(name, v, i, nameWidth, valueWidth, limit)
        invariant w.pending == RowLead(name, nameWidth, i, lineCount)
      {
        PrintRowLine(w, name, v, i, lineCount, nameWidth, valueWidth, limit);
        StringTable.RowLinesSnoc(name, v, i, nameWidth, valueWidth, limit);
        i := i + 1;
      }
    }
  }

  /** One pass of the wrapping loop of `dumpStringMap`: ends physical line `i` and, unless it was the last, starts the next with a blank name cell. */
  method PrintRowLine(w: Writer, name: string, v: string, i: nat, n: nat, nameWidth: int, valueWidth: int, limit: int)
    requires limit >= 1 && n == LineCount(|v|, limit) && i < n
    requires w.pending == RowLead(name, nameWidth, i, n)
    modifies w
    ensures w.lines == old(w.lines) + [StringTable.RowLine(name, v, i, nameWidth, valueWidth, limit)]
    ensures w.pending == RowLead(name, nameWidth, i + 1, n)
  {
    PrintValueCell(w, v, i, n, valueWidth, limit);
    if i < n - 1 {
      PrintNameCell(w, "", nameWidth);
      assert w.pending == NameCell("", nameWidth);
    }
  }

  /** What stands at the start of the line before value line `i` of a row: the name cell, a blank name cell, or nothing once the row is done. */
  ghost function RowLead(name: string, nameWidth: int, i: nat, n: nat): string
  {
    if i == 0 then NameCell(name, nameWidth) else if i < n then NameCell("", nameWidth) else ""
  }

  /** The entry loop of `dumpStringMap`: the rows of every entry of the normalized map, in order. */
  method PrintStringRows(w: Writer, sm: StringMap, ghost es: seq<StringTable.Entry>, ghost layout: StringTable.StringLayout, nameWidth: int, valueWidth: int, limit: int)
    requires limit >= 1 && w.pending == ""
    requires layout.nameWidth == nameWidth && layout.valueWidth == valueWidth
    requires |sm.entries| == |es|
    requires forall i :: 0 <= i < |es| ==> sm.entries[i] == (es[i].0, Some(es[i].1))
    modifies w
    ensures w.lines == old(w.lines) + Flatten(es, StringTable.RowOf(layout, limit))
    ensures w.pending == ""
  {
    ghost var rowOf := StringTable.RowOf(layout, limit);
    var entries := sm.entries;
    var k := 0;
    while k < |entries|
      invariant 0 <= k <= |entries|
      invariant w.pending == ""
      invariant w.lines == old(w.lines) + Flatten(es[..k], rowOf)
    {
      var name, value := entries[k].0, entries[k].1.value;
      PrintStringRow(w, name, value, nameWidth, valueWidth, limit);
      FlattenStepAfter(old(w.lines), es, rowOf, k);
      k := k + 1;
    }
    assert es[..k] == es;
  }

  /**
   * `dumpStringMap`: overwrites the caller's null values with "(null)" and
   * writes the table of the entries in their order.
   */
  method DumpStringMap(w: Writer, title: string, sm: StringMap, limit: int)
    requires limit >= 1
    modifies w, sm
    ensures sm.entries == StringTable.Normalized(old(sm.entries))
    ensures var t := StringTable.TableLines(title, StringTable.Plain(old(sm.entries)), limit);
      w.lines == old(w.lines) + [old(w.pending) + t[0]] + t[1..] && w.pending == ""
  {
    ghost var es := StringTable.Plain(sm.entries);
    var nameWidth, valueWidth, totalWidth := StringWidths(sm, title, limit);
    StringTable.NormalizedAgreesWithPlain(old(sm.entries));
    PrintStringTable(w, title, sm, es, StringTable.StringLayout(nameWidth, valueWidth, totalWidth), nameWidth, valueWidth, totalWidth, limit);
  }

  /** The printing part of `dumpStringMap`, once the widths are known: the frame and the rows of the normalized map. */
  method PrintStringTable(w: Writer, title: string, sm: StringMap, ghost es: seq<StringTable.Entry>, ghost layout: StringTable.StringLayout,
                          nameWidth: int, valueWidth: int, totalWidth: int, limit: int)
    requires limit >= 1
    requires layout == StringTable.StringLayout(nameWidth, valueWidth, totalWidth) == StringTable.Layout(title, es, limit)
    requires |sm.entries| == |es|
    requires forall i :: 0 <= i < |es| ==> sm.entries[i] == (es[i].0, Some(es[i].1))
    modifies w
    ensures var t := StringTable.TableLines(title, es, limit);
      w.lines == old(w.lines) + [old(w.pending) + t[0]] + t[1..] && w.pending == ""
  {
    PrintHeading(w, title, totalWidth);
    PrintStringBody(w, sm, es, layout, nameWidth, valueWidth, totalWidth, limit);
    ghost var rest := StringBody(es, layout, limit);
    assert StringTable.TableLines(title, es, limit) == [Rule(totalWidth), TitleLine(title, totalWidth)] + rest;
    FirstLineJoinsPending(old(w.lines), old(w.pending), [Rule(totalWidth), TitleLine(title, totalWidth)] + rest);
  }

  /** The lines of a string table below its title bar. */
  ghost function StringBody(es: seq<StringTable.Entry>, layout: StringTable.StringLayout, limit: int): seq<string>
    requires limit >= 1
  {
    if es == [] then [Rule(layout.totalWidth)]
    else [Separator(layout.nameWidth, layout.valueWidth)] + Flatten(es, StringTable.RowOf(layout, limit)) + [Separator(layout.nameWidth, layout.valueWidth)]
  }

  /** The closing rule of an empty map, or the entry rows between two separators. */
  method PrintStringBody(w: Writer, sm: StringMap, ghost es: seq<StringTable.Entry>, ghost layout: StringTable.StringLayout,
                         nameWidth: int, valueWidth: int, totalWidth: int, limit: int)
    requires limit >= 1 && w.pending == ""
    requires layout == StringTable.StringLayout(nameWidth, valueWidth, totalWidth)
    requires |sm.entries| == |es|
    requires forall i :: 0 <= i < |es| ==> sm.entries[i] == (es[i].0, Some(es[i].1))
    modifies w
    ensures w.lines == old(w.lines) + StringBody(es, layout, limit) && w.pending == ""
  {
    if |sm.entries| == 0 {
      PrintRule(w, totalWidth);
    } else {
      ghost var sep, rows := Separator(nameWidth, valueWidth), Flatten(es, StringTable.RowOf(layout, limit));
      PrintSeparator(w, nameWidth, valueWidth);
      PrintStringRows(w, sm, es, layout, nameWidth, valueWidth, limit);
      PrintSeparator(w, nameWidth, valueWidth);
      assert w.lines == old(w.lines) + [sep] + rows + [sep];
      assert old(w.lines) + [sep] + rows + [sep] == old(w.lines) + ([sep] + rows + [sep]);
    }
  }

  /** The loop of `dumpObjectMap` that builds the fresh map of descriptions; a value that cannot be described stops it. */
  method DescribeEntries(objMap: seq<ObjectTable.RawEntry>) returns (r: Result<seq<ObjectTable.Described>, JavaException>)
    ensures r == ObjectTable.DescribeAll(objMap)
  {
    var described: seq<ObjectTable.Described> := [];
    var j := 0;
    while j < |objMap|
      invariant 0 <= j <= |objMap|
      invariant ObjectTable.DescribeAll(objMap[..j]) == Ok(described)
    {
      var d := ObjectTable.Describe(objMap[j].1);
      assert objMap[..j + 1][..j] == objMap[..j];
      if d.Err? {
        ObjectTable.DescribeAllErrSticks(objMap, j + 1);
        return Err(d.error);
      }
      described := described + [(objMap[j].0, d.value)];
      j := j + 1;
    }
    assert objMap[..j] == objMap;
    return Ok(described);
  }

  /** The width loop of `dumpObjectMap`, seeded with the title's length, and the reconciliation of the columns. */
  method ObjectWidths(title: string, ds: seq<ObjectTable.Described>, limit: int) returns (nameWidth: int, classWidth: int, valueWidth: int)
    ensures ObjectTable.ObjectLayout(nameWidth, classWidth, valueWidth) == ObjectTable.Layout(title, ds, limit)
  {
    ghost var names, classes, texts := ObjectTable.Names(ds), ObjectTable.Classes(ds), ObjectTable.Texts(ds);
    nameWidth, classWidth, valueWidth := 0, 0, |title|;
    if |ds| > 0 {
      var j := 0;
      while j < |ds|
        invariant 0 <= j <= |ds|
        invariant nameWidth == MaxLen(names[..j])
        invariant classWidth == MaxLen(classes[..j])
        invariant valueWidth == ClampedWidth(texts[..j], limit, |title|)
      {
        var name, d := ds[j].0, ds[j].1;
        WidthsStep(names, j, limit, 0);
        WidthsStep(classes, j, limit, 0);
        WidthsStep(texts, j, limit, |title|);
        if |name| > nameWidth {
          nameWidth := |name|;
        }
        if |d.className| > classWidth {
          classWidth := |d.className|;
        }
        if |d.text| <= limit && |d.text| > valueWidth {
          valueWidth := |d.text|;
        } else if |d.text| > limit {
          valueWidth := limit;
        }
        j := j + 1;
      }
      assert names[..j] == names && classes[..j] == classes && texts[..j] == texts;
      if nameWidth + classWidth + 1 > valueWidth {
        valueWidth := nameWidth + classWidth + 1;
      } else {
        classWidth := valueWidth - (nameWidth + 1);
      }
    }
  }

  /** The name/type line and the value lines of one entry of `dumpObjectMap`, starting on a fresh line. */
  method PrintObjectEntry(w: Writer, d: ObjectTable.Described, nameWidth: int, classWidth: int, valueWidth: int, limit: int)
    requires limit >= 1 && w.pending == ""
    modifies w
    ensures w.lines == old(w.lines) + ObjectTable.EntryLines(d, ObjectTable.ObjectLayout(nameWidth, classWidth, valueWidth), limit)
    ensures w.pending == ""
  {
    ghost var layout := ObjectTable.ObjectLayout(nameWidth, classWidth, valueWidth);
    PrintHeaderLine(w, d, layout, nameWidth, classWidth);
    PrintValueLines(w, d.1.text, valueWidth, limit);
    assert ObjectTable.EntryLines(d, layout, limit) == [ObjectTable.HeaderLine(d, layout)] + ValueBlock(d.1.text, valueWidth, limit);
  }

  /** The name/type line of one entry. */
  method PrintHeaderLine(w: Writer, d: ObjectTable.Described, ghost layout: ObjectTable.ObjectLayout, nameWidth: int, classWidth: int)
    requires w.pending == "" && layout.nameWidth == nameWidth && layout.classWidth == classWidth
    modifies w
    ensures w.lines == old(w.lines) + [ObjectTable.HeaderLine(d, layout)] && w.pending == ""
  {
    var name, className := d.0, d.1.className;
    PrintNameCell(w, name, nameWidth);
    w.Print(className);
    PrintChar(w, ' ', classWidth - |className|);
    assert w.pending == NameCell(name, nameWidth) + className + Repeat(' ', classWidth - |className|);
    w.Println("|");
  }

  /** The value lines of one entry: a blank one for an empty text, otherwise one per chunk. */
  ghost function ValueBlock(text: string, valueWidth: int, limit: int): seq<string>
    requires limit >= 1
  {
    var n := LineCount(|text|, limit);
    if n == 0 then [Repeat(' ', valueWidth) + "|"] else ObjectTable.ValueLines(text, n, valueWidth, limit)
  }

  /** The value loop of `dumpObjectMap` for one entry, after its name/type line. */
  method PrintValueLines(w: Writer, text: string, valueWidth: int, limit: int)
    requires limit >= 1 && w.pending == ""
    modifies w
    ensures w.lines == old(w.lines) + ValueBlock(text, valueWidth, limit) && w.pending == ""
  {
    var lineCount := CountLines(|text|, limit);
    if lineCount == 0 {
      PrintChar(w, ' ', valueWidth);
      assert w.pending == Repeat(' ', valueWidth);
      w.Println("|");
    } else {
      var i := 0;
      while i < lineCount
        invariant 0 <= i <= lineCount
        invariant w.pending == ""
        invariant w.lines == old(w.lines) + ObjectTable.ValueLines(text, i, valueWidth, limit)
      {
        w.Print("|");
        assert w.pending == "|";
        PrintValueCell(w, text, i, lineCount, valueWidth, limit);
        i := i + 1;
      }
    }
  }

  /** The entry loop of `dumpObjectMap`: the lines of every description, in order. */
  method PrintObjectEntries(w: Writer, ds: seq<ObjectTable.Described>, nameWidth: int, classWidth: int, valueWidth: int, limit: int)
    requires limit >= 1 && w.pending == ""
    modifies w
    ensures w.lines == old(w.lines) + Flatten(ds, ObjectTable.EntryOf(ObjectTable.ObjectLayout(nameWidth, classWidth, valueWidth), limit))
    ensures w.pending == ""
  {
    ghost var entryOf := ObjectTable.EntryOf(ObjectTable.ObjectLayout(nameWidth, classWidth, valueWidth), limit);
    var k := 0;
    while k < |ds|
      invariant 0 <= k <= |ds|
      invariant w.pending == ""
      invariant w.lines == old(w.lines) + Flatten(ds[..k], entryOf)
    {
      PrintObjectEntry(w, ds[k], nameWidth, classWidth, valueWidth, limit);
      FlattenStepAfter(old(w.lines), ds, entryOf, k);
      k := k + 1;
    }
    assert ds[..k] == ds;
  }

  /**
   * `dumpObjectMap`: describes every value into a fresh map, leaving the
   * caller's map alone, then writes the table. A value that cannot be
   * described raises its exception before anything is written.
   */
  method DumpObjectMap(w: Writer, title: string, objMap: seq<ObjectTable.RawEntry>, limit: int) returns (thrown: Option<JavaException>)
    requires limit >= 1
    modifies w
    ensures ObjectTable.DescribeAll(objMap).Err? ==>
      thrown == Some(ObjectTable.DescribeAll(objMap).error) && w.lines == old(w.lines) && w.pending == old(w.pending)
    ensures ObjectTable.DescribeAll(objMap).Ok? ==>
      var t := ObjectTable.TableLines(title, ObjectTable.DescribeAll(objMap).value, limit);
      thrown == None && w.lines == old(w.lines) + [old(w.pending) + t[0]] + t[1..] && w.pending == ""
  {
    var described := DescribeEntries(objMap);
    if described.Err? {
      return Some(described.error);
    }
    var ds := described.value;
    var nameWidth, classWidth, valueWidth := ObjectWidths(title, ds, limit);
    PrintObjectTable(w, title, ds, ObjectTable.ObjectLayout(nameWidth, classWidth, valueWidth), nameWidth, classWidth, valueWidth, limit);
    thrown := None;
  }

  /** The printing part of `dumpObjectMap`, once the widths are known: the frame and the entries of the fresh map of descriptions. */
  method PrintObjectTable(w: Writer, title: string, ds: seq<ObjectTable.Described>, ghost layout: ObjectTable.ObjectLayout,
                          nameWidth: int, classWidth: int, valueWidth: int, limit: int)
    requires limit >= 1
    requires layout == ObjectTable.ObjectLayout(nameWidth, classWidth, valueWidth) == ObjectTable.Layout(title, ds, limit)
    modifies w
    ensures var t := ObjectTable.TableLines(title, ds, limit);
      w.lines == old(w.lines) + [old(w.pending) + t[0]] + t[1..] && w.pending == ""
  {
    PrintHeading(w, title, valueWidth);
    PrintObjectBody(w, ds, layout, nameWidth, classWidth, valueWidth, limit);
    ghost var rest := ObjectBody(ds, layout, limit);
    assert ObjectTable.TableLines(title, ds, limit) == [Rule(valueWidth), TitleLine(title, valueWidth)] + rest;
    FirstLineJoinsPending(old(w.lines), old(w.pending), [Rule(valueWidth), TitleLine(title, valueWidth)] + rest);
  }

  /** The lines of an object table below its title bar. */
  ghost function ObjectBody(ds: seq<ObjectTable.Described>, layout: ObjectTable.ObjectLayout, limit: int): seq<string>
    requires limit >= 1
  {
    if ds == [] then [Rule(layout.valueWidth)]
    else [Separator(layout.nameWidth, layout.classWidth)] + Flatten(ds, ObjectTable.EntryOf(layout, limit)) + [Rule(layout.valueWidth)]
  }

  /** The closing rule of an empty map, or the entries between the separator and the closing rule. */
  method PrintObjectBody(w: Writer, ds: seq<ObjectTable.Described>, ghost layout: ObjectTable.ObjectLayout,
                         nameWidth: int, classWidth: int, valueWidth: int, limit: int)
    requires limit >= 1 && w.pending == ""
    requires layout == ObjectTable.ObjectLayout(nameWidth, classWidth, valueWidth)
    modifies w
    ensures w.lines == old(w.lines) + ObjectBody(ds, layout, limit) && w.pending == ""
  {
    if |ds| == 0 {
      PrintRule(w, valueWidth);
    } else {
      ghost var sep, entries, rule := Separator(nameWidth, classWidth), Flatten(ds, ObjectTable.EntryOf(layout, limit)), Rule(valueWidth);
      PrintSeparator(w, nameWidth, classWidth);
      PrintObjectEntries(w, ds, nameWidth, classWidth, valueWidth, limit);
      PrintRule(w, valueWidth);
      assert w.lines == old(w.lines) + [sep] + entries + [rule];
      assert old(w.lines) + [sep] + entries + [rule] == old(w.lines) + ([sep] + entries + [rule]);
    }
  }
}
