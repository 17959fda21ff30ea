/**
 * CSV export of a product list (util/CsvExporter.java), with a reader for
 * the quoted fields it writes so that the export can be shown lossless up to
 * null-versus-empty.
 */
module Csv {
  import opened Wrappers
  import opened Decimals
  import opened Products
  import opened Seqs

  const HEADER := "SKU,Barcode,Description,Price,Quantity\n"

  /** `s.replace("\"", "\"\"")`: every double quote doubled. */
  function Escape(s: string): string {
    if s == [] then []
    else (if s[0] == '"' then "\"\"" else [s[0]]) + Escape(s[1..])
  }

  /** Escaping adds exactly one character per double quote of the text. */
  lemma {:induction false} EscapeLength(s: string)
    ensures |Escape(s)| == |s| + multiset(s)['"']
  {
    if s != [] {
      assert s == [s[0]] + s[1..];
      EscapeLength(s[1..]);
    }
  }

  /** `cell(v)`: null becomes an empty quoted field; anything else is escaped and quoted. */
  function Cell(v: Option<string>): (r: string)
    ensures |r| >= 2 && r[0] == '"' && r[|r| - 1] == '"'
    ensures v.None? ==> r == "\"\""
  {
    if v.None? then "\"\"" else "\"" + Escape(v.value) + "\""
  }

  /**
   * The rendering `String.valueOf` gives a BigDecimal and a Double. Number
   * formatting is not part of this model; the renderers are parameters.
   */
  datatype Renderers = Renderers(price: Decimal -> string, stock: real -> string)

  /** The five exported values of one product: SKU, barcode, description, price, quantity. */
  function Fields(p: ProductInfo, show: Renderers): (f: seq<Option<string>>)
    ensures |f| == 5
    ensures f[3].Some? && (f[4].None? <==> p.currentStock.None?)
  {
    [p.sku, p.barcode, p.description, Some(show.price(p.price)),
     if p.currentStock.None? then None else Some(show.stock(p.currentStock.value))]
  }

  /** Cells joined by commas. */
  function Joined(fs: seq<Option<string>>): string
    requires |fs| >= 1
    decreases |fs|
  {
    if |fs| == 1 then Cell(fs[0]) else Cell(fs[0]) + "," + Joined(fs[1..])
  }

  /** One product's line. */
  function Row(show: Renderers): ProductInfo -> string {
    p => Joined(Fields(p, show)) + "\n"
  }

  /** The whole export: the header, then one line per product in list order. */
  function CsvText(items: seq<ProductInfo>, show: Renderers): string {
    HEADER + Flatten(Row(show), items)
  }

  /**
   * `toCsv(items)`: appends the header, then each product's five cells and a
   * newline. The products are read through their getters, so the list is
   * given as the products' states.
   */
  method ToCsv(items: seq<ProductInfo>, show: Renderers) returns (csv: string)
    ensures csv == CsvText(items, show)
  {
    csv := HEADER;
    var i := 0;
    while i < |items|
      invariant 0 <= i <= |items|
      invariant csv == HEADER + Flatten(Row(show), items[..i])
    {
      var f := Fields(items[i], show);
      csv := csv + (Cell(f[0]) + "," + (Cell(f[1]) + "," + (Cell(f[2]) + "," + (Cell(f[3]) + "," + Cell(f[4])))) + "\n");
      RowShape(f);
      FlattenStep(Row(show), items, i);
      AppendAssoc(HEADER, Flatten(Row(show), items[..i]), Row(show)(items[i]));
      i := i + 1;
    }
    assert items[..|items|] == items;
  }

  lemma {:induction false} RowShape(f: seq<Option<string>>)
    requires |f| == 5
    ensures Joined(f) + "\n" == Cell(f[0]) + "," + (Cell(f[1]) + "," + (Cell(f[2]) + "," + (Cell(f[3]) + "," + Cell(f[4])))) + "\n"
  {
    var f1 := f[1..];
    var f2 := f1[1..];
    var f3 := f2[1..];
    var f4 := f3[1..];
    assert Joined(f4) == Cell(f[4]);
    assert Joined(f3) == Cell(f[3]) + "," + Cell(f[4]);
    assert Joined(f2) == Cell(f[2]) + "," + (Cell(f[3]) + "," + Cell(f[4]));
    assert Joined(f1) == Cell(f[1]) + "," + (Cell(f[2]) + "," + (Cell(f[3]) + "," + Cell(f[4])));
  }

  // ----- reading the export back -----

  /** The body of a quoted field up to its closing quote (`""` stands for one quote), and what follows. */
  function ReadQuoted(t: string): Option<(string, string)>
    decreases |t|
  {
    if t == [] then None
    else if t[0] == '"' then
      if |t| >= 2 && t[1] == '"' then
        match ReadQuoted(t[2..])
        case None => None
        case Some((body, rest)) => Some(("\"" + body, rest))
      else Some(("", t[1..]))
    else
      match ReadQuoted(t[1..])
      case None => None
      case Some((body, rest)) => Some(([t[0]] + body, rest))
  }

  /** One quoted field at the start of t. */
  function ReadCell(t: string): Option<(string, string)> {
    if t != [] && t[0] == '"' then ReadQuoted(t[1..]) else None
  }

  /** n fields separated by commas and closed by a newline. */
  function ReadFields(t: string, n: nat): Option<(seq<string>, string)>
    requires n >= 1
    decreases n
  {
    match ReadCell(t)
    case None => None
    case Some((v, rest)) =>
      if n == 1 then
        if rest != [] && rest[0] == '\n' then Some(([v], rest[1..])) else None
      else if rest != [] && rest[0] == ',' then
        match ReadFields(rest[1..], n - 1)
        case None => None
        case Some((vs, rest')) => Some(([v] + vs, rest'))
      else None
  }

  /** Lines of five fields until the text runs out. */
  function ReadRows(t: string): Option<seq<seq<string>>>
    decreases |t|
  {
    if t == [] then Some([])
    else
      match ReadFields(t, 5)
      case None => None
      case Some((row, rest)) =>
        if |rest| < |t| then
          match ReadRows(rest)
          case None => None
          case Some(rows) => Some([row] + rows)
        else None
  }

  /** A whole export: the fixed header, then its lines. */
  function ReadCsv(t: string): Option<seq<seq<string>>> {
    if |HEADER| <= |t| && t[..|HEADER|] == HEADER then ReadRows(t[|HEADER|..]) else None
  }

  /** What a reader gets back for one product: each value as text, null as "". */
  function Values(fs: seq<Option<string>>): (vs: seq<string>)
    ensures |vs| == |fs|
    ensures forall i :: 0 <= i < |fs| ==> vs[i] == fs[i].GetOr("")
  {
    if fs == [] then [] else [fs[0].GetOr("")] + Values(fs[1..])
  }

  lemma {:induction false} ReadQuotedEscape(s: string, rest: string)
    requires rest == [] || rest[0] != '"'
    ensures ReadQuoted(Escape(s) + "\"" + rest) == Some((s, rest))
  {
    if s == [] {
      assert Escape(s) + "\"" + rest == "\"" + rest;
    } else {
      ReadQuotedEscape(s[1..], rest);
      var head := if s[0] == '"' then "\"\"" else [s[0]];
      var next := Escape(s[1..]) + "\"" + rest;
      Regroup(head, Escape(s[1..]), "\"", rest);
      DropPrefix(head, next);
      assert [s[0]] + s[1..] == s;
    }
  }

  lemma Regroup<T>(a: seq<T>, b: seq<T>, c: seq<T>, d: seq<T>)
    ensures a + b + c + d == a + (b + c + d)
  {
  }

  lemma DropPrefix<T>(a: seq<T>, b: seq<T>)
    ensures (a + b)[|a|..] == b
  {
  }

  /** A cell reads back as its value, null as "", whatever follows it (a comma or newline in practice). */
  lemma {:induction false} ReadCellOfCell(v: Option<string>, rest: string)
    requires rest == [] || rest[0] != '"'
    ensures ReadCell(Cell(v) + rest) == Some((v.GetOr(""), rest))
  {
    if v.None? {
      assert (Cell(v) + rest)[1..] == "\"" + rest;
      assert ("\"" + rest)[1..] == rest;
    } else {
      ReadQuotedEscape(v.value, rest);
      assert (Cell(v) + rest)[1..] == Escape(v.value) + "\"" + rest;
    }
  }

  lemma {:induction false} ReadFieldsJoined(fs: seq<Option<string>>, rest: string)
    requires |fs| >= 1
    ensures ReadFields(Joined(fs) + "\n" + rest, |fs|) == Some((Values(fs), rest))
    decreases |fs|
  {
    if |fs| == 1 {
      ReadLastField(fs[0], rest);
      assert Values(fs) == [fs[0].GetOr("")];
    } else {
      ReadFieldsJoined(fs[1..], rest);
      ReadNextField(fs[0], Joined(fs[1..]), rest, |fs|);
      assert Values(fs) == [fs[0].GetOr("")] + Values(fs[1..]);
    }
  }

  /** The last cell of a line reads back, and the newline is consumed. */
  lemma ReadLastField(v: Option<string>, rest: string)
    ensures ReadFields(Cell(v) + "\n" + rest, 1) == Some(([v.GetOr("")], rest))
  {
    ReadCellOfCell(v, "\n" + rest);
    assert Cell(v) + "\n" + rest == Cell(v) + ("\n" + rest);
    assert ("\n" + rest)[1..] == rest;
  }

  /** A cell followed by a comma reads back, and the reader goes on after the comma. */
  lemma ReadNextField(v: Option<string>, more: string, rest: string, n: nat)
    requires n >= 2
    ensures ReadFields(Cell(v) + "," + more + "\n" + rest, n) ==
              match ReadFields(more + "\n" + rest, n - 1)
              case None => None
              case Some((vs, rest')) => Some(([v.GetOr("")] + vs, rest'))
  {
    var tail := more + "\n" + rest;
    ReadCellOfCell(v, "," + tail);
    Regroup(Cell(v), ",", more, "\n" + rest);
    AppendAssoc(Cell(v) + "," + more, "\n", rest);
    AppendAssoc(more, "\n", rest);
    AppendAssoc(",", more, "\n" + rest);
    DropPrefix(",", tail);
  }

  /** The lines a reader gets back for a list of products. */
  function Table(items: seq<ProductInfo>, show: Renderers): (rows: seq<seq<string>>)
    ensures |rows| == |items|
    ensures forall k :: 0 <= k < |items| ==> rows[k] == Values(Fields(items[k], show))
  {
    if items == [] then [] else [Values(Fields(items[0], show))] + Table(items[1..], show)
  }

  lemma {:induction false} ReadRowsFlatten(items: seq<ProductInfo>, show: Renderers)
    ensures ReadRows(Flatten(Row(show), items)) == Some(Table(items, show))
    decreases |items|
  {
    if items != [] {
      var head := Row(show)(items[0]);
      var tail := Flatten(Row(show), items[1..]);
      FlattenAppend(Row(show), [items[0]], items[1..]);
      assert [items[0]] + items[1..] == items;
      assert Flatten(Row(show), [items[0]]) == head by {
        assert [items[0]][..0] == [];
      }
      ReadFieldsJoined(Fields(items[0], show), tail);
      assert head + tail == Joined(Fields(items[0], show)) + "\n" + tail;
      ReadRowsFlatten(items[1..], show);
    }
  }

  /**
   * Round trip: reading an export gives back, line by line and in order, each
   * product's five values, quotes included; only null and "" look alike.
   */
  lemma {:induction false} ReadCsvOfExport(items: seq<ProductInfo>, show: Renderers)
    ensures ReadCsv(CsvText(items, show)) == Some(Table(items, show))
  {
    var t := CsvText(items, show);
    assert t[..|HEADER|] == HEADER;
    assert t[|HEADER|..] == Flatten(Row(show), items);
    ReadRowsFlatten(items, show);
  }

  /** An empty list exports the header line alone. */
  lemma EmptyExport(show: Renderers)
    ensures CsvText([], show) == "SKU,Barcode,Description,Price,Quantity\n"
  {
  }
}
