/**
 * The fixed-width text table that lists sales inside a notification: one row
 * per sale with the product name, the buyer and the value, under a header and
 * a dashed separator, fenced as a `text` code block.
 */
module Table {
  import opened Wrappers
  import opened Strings
  import opened Money
  import opened Sales

  const Placeholder := "Nenhum registro."
  const OpeningFence := "```text"
  const ClosingFence := "```"
  const Ellipsis: char := '\U{2026}'

  /** Width of the name and buyer columns. */
  const CellWidth := 15
  /** Longest name or buyer shown in full. */
  const CellLimit := 13
  /** Width the value is right-aligned in. */
  const ValueWidth := 8

  const Header := PadEnd("PRODUTO", CellWidth) + PadEnd("COMPRADOR", CellWidth) + "VALOR"
  const Separator := Repeat('-', CellWidth) + " " + Repeat('-', CellWidth) + " " + Repeat('-', 10)

  /** A name or buyer cut to twelve characters and an ellipsis when it is longer than thirteen. */
  function Truncate(s: string): (r: string)
    ensures |r| <= CellLimit
    ensures r == s <==> |s| <= CellLimit
    ensures |s| > CellLimit ==> |r| == CellLimit && r[..CellLimit - 1] == s[..CellLimit - 1] && r[CellLimit - 1] == Ellipsis
  {
    if |s| > CellLimit then s[..CellLimit - 1] + [Ellipsis] else s
  }

  /** `s.buyer || '-'`: a missing or empty buyer shows as a dash. */
  function BuyerText(buyer: Option<string>): (r: string)
    ensures r != ""
    ensures buyer.Some? && buyer.value != "" ==> r == buyer.value
  {
    match buyer
    case Some(b) => if b == "" then "-" else b
    case None => "-"
  }

  function NameCell(sale: Sale): string
  {
    PadEnd(Truncate(sale.name), CellWidth)
  }

  function BuyerCell(sale: Sale): string
  {
    PadEnd(Truncate(BuyerText(sale.buyer)), CellWidth)
  }

  function ValueCell(sale: Sale): string
  {
    PadStart(FormatCents(sale.value), ValueWidth)
  }

  /** One table row: name cell, a space, buyer cell, ` R$ ` and the right-aligned value. */
  function Row(sale: Sale): string
  {
    NameCell(sale) + " " + BuyerCell(sale) + " R$ " + ValueCell(sale)
  }

  function Rows(sales: seq<Sale>): (r: seq<string>)
    ensures |r| == |sales|
    ensures forall i :: 0 <= i < |sales| ==> r[i] == Row(sales[i])
  {
    if sales == [] then [] else [Row(sales[0])] + Rows(sales[1..])
  }

  /** `formatTable(sales)`. */
  function FormatTable(sales: seq<Sale>): (r: string)
    ensures r == Placeholder <==> sales == []
  {
    if |sales| == 0 then Placeholder
    else OpeningFence + "\n" + Header + "\n" + Separator + "\n" + JoinLines(Rows(sales)) + "\n" + ClosingFence
  }

  // ---------------------------------------------------------------------------
  // Cells

  /** Name and buyer cells are always exactly fifteen characters wide, value cells at least eight. */
  lemma CellWidths(sale: Sale)
    ensures |NameCell(sale)| == CellWidth && |BuyerCell(sale)| == CellWidth
    ensures |ValueCell(sale)| >= ValueWidth
  {
  }

  /** A name cell shows the name itself when it fits, and otherwise its first twelve characters and an ellipsis. */
  lemma NameCellShows(sale: Sale)
    ensures |sale.name| <= CellLimit ==> NameCell(sale)[..|sale.name|] == sale.name
    ensures |sale.name| > CellLimit ==>
      NameCell(sale)[..CellLimit - 1] == sale.name[..CellLimit - 1] && NameCell(sale)[CellLimit - 1] == Ellipsis
    ensures forall i :: |Truncate(sale.name)| <= i < CellWidth ==> NameCell(sale)[i] == ' '
  {
  }

  /** A missing or empty buyer shows as a dash followed by spaces. */
  lemma MissingBuyerShowsDash(sale: Sale)
    requires sale.buyer == None || sale.buyer == Some("")
    ensures BuyerCell(sale) == "-" + Repeat(' ', CellWidth - 1)
  {
  }

  /** Where each column of a row sits. */
  lemma RowColumns(sale: Sale)
    ensures Row(sale)[..CellWidth] == NameCell(sale)
    ensures Row(sale)[CellWidth] == ' '
    ensures Row(sale)[CellWidth + 1..2 * CellWidth + 1] == BuyerCell(sale)
    ensures Row(sale)[2 * CellWidth + 1..2 * CellWidth + 5] == " R$ "
    ensures Row(sale)[2 * CellWidth + 5..] == ValueCell(sale)
  {
    CellWidths(sale);
    ColumnSlices(NameCell(sale), BuyerCell(sale), ValueCell(sale));
  }

  lemma ColumnSlices(n: string, b: string, v: string)
    requires |n| == CellWidth && |b| == CellWidth
    ensures (n + " " + b + " R$ " + v)[..CellWidth] == n
    ensures (n + " " + b + " R$ " + v)[CellWidth] == ' '
    ensures (n + " " + b + " R$ " + v)[CellWidth + 1..2 * CellWidth + 1] == b
    ensures (n + " " + b + " R$ " + v)[2 * CellWidth + 1..2 * CellWidth + 5] == " R$ "
    ensures (n + " " + b + " R$ " + v)[2 * CellWidth + 5..] == v
  {
    var w := n + " " + b + " R$ " + v;
    assert w == n + (" " + (b + (" R$ " + v)));
  }

  /** The value column of a row reads back as the sale's value. */
  lemma RowValueReadsBack(sale: Sale)
    ensures ParseCents(TrimStart(Row(sale)[2 * CellWidth + 5..])) == Some(sale.value)
  {
    RowColumns(sale);
    TrimPadStart(FormatCents(sale.value), ValueWidth);
    CentsRoundTrip(sale.value);
  }

  /** Every value from -9999.99 to 99999.99 gives a row of 43 characters. */
  lemma RowWidth(sale: Sale)
    requires -1_000_000 < sale.value < 10_000_000
    ensures |Row(sale)| == 2 * CellWidth + 5 + ValueWidth
  {
    CellWidths(sale);
    FormatCentsFitsColumn(sale.value);
  }

  // ---------------------------------------------------------------------------
  // The table as a whole

  /** The empty list gives the placeholder, never an empty table. */
  lemma EmptyTable()
    ensures FormatTable([]) == Placeholder
  {
  }

  /** The table's lines: opening fence, header, separator, one row per sale in order, closing fence. */
  function TableLines(sales: seq<Sale>): seq<string>
  {
    [OpeningFence, Header, Separator] + Rows(sales) + [ClosingFence]
  }

  /** A non-empty table is its lines joined by newlines. */
  lemma {:induction false} TableIsJoinedLines(sales: seq<Sale>)
    requires sales != []
    ensures FormatTable(sales) == JoinLines(TableLines(sales))
  {
    var rows := Rows(sales);
    JoinAppend([OpeningFence, Header, Separator] + rows, [ClosingFence]);
    JoinAppend([OpeningFence, Header, Separator], rows);
    JoinThree(OpeningFence, Header, Separator);
  }

  lemma JoinThree(a: string, b: string, c: string)
    ensures JoinLines([a, b, c]) == a + "\n" + b + "\n" + c
  {
    assert [a, b, c][1..] == [b, c];
    assert [b, c][1..] == [c];
    assert JoinLines([c]) == c;
    assert JoinLines([b, c]) == b + "\n" + c;
  }

  /** The fixed lines of a table hold no line break. */
  lemma FrameIsPlain()
    ensures NoNewline(OpeningFence) && NoNewline(ClosingFence)
    ensures NoNewline(Header) && NoNewline(Separator)
  {
    var p, c := PadEnd("PRODUTO", CellWidth), PadEnd("COMPRADOR", CellWidth);
    assert NoNewline(p) && NoNewline(c);
    assert Header == p + c + "VALOR";
    var d, e := Repeat('-', CellWidth), Repeat('-', 10);
    assert Separator == d + " " + d + " " + e;
  }

  predicate Plain(sale: Sale)
  {
    NoNewline(sale.name) && NoNewline(BuyerText(sale.buyer))
  }

  lemma RowHasNoNewline(sale: Sale)
    requires Plain(sale)
    ensures NoNewline(Row(sale))
  {
    var t := Truncate(sale.name);
    assert NoNewline(t) by {
      if |sale.name| > CellLimit {
        assert forall i :: 0 <= i < CellLimit - 1 ==> t[i] == sale.name[i];
      }
    }
    var u := Truncate(BuyerText(sale.buyer));
    assert NoNewline(u) by {
      if |BuyerText(sale.buyer)| > CellLimit {
        assert forall i :: 0 <= i < CellLimit - 1 ==> u[i] == BuyerText(sale.buyer)[i];
      }
    }
    assert NoNewline(NameCell(sale)) by {
      assert NameCell(sale) == t + Repeat(' ', CellWidth - |t|);
    }
    assert NoNewline(BuyerCell(sale)) by {
      assert BuyerCell(sale) == u + Repeat(' ', CellWidth - |u|);
    }
    var f := FormatCents(sale.value);
    assert NoNewline(ValueCell(sale)) by {
      if |f| < ValueWidth {
        assert ValueCell(sale) == Repeat(' ', ValueWidth - |f|) + f;
      }
    }
  }

  /**
   * Reading a non-empty table line by line gives back the fence, header,
   * separator, one row per sale in input order and the closing fence, as long
   * as no name or buyer holds a line break.
   */
  lemma TableReadsBackLineByLine(sales: seq<Sale>)
    requires sales != []
    requires forall i :: 0 <= i < |sales| ==> Plain(sales[i])
    ensures SplitLines(FormatTable(sales)) == TableLines(sales)
    ensures |SplitLines(FormatTable(sales))| == |sales| + 4
  {
    TableIsJoinedLines(sales);
    var rows := Rows(sales);
    var lines := TableLines(sales);
    FrameIsPlain();
    forall i | 0 <= i < |lines| ensures NoNewline(lines[i]) {
      if i < 3 {
        assert lines[i] in [OpeningFence, Header, Separator];
      } else if i < 3 + |sales| {
        assert lines[i] == rows[i - 3];
        RowHasNoNewline(sales[i - 3]);
      } else {
        assert lines[i] == ClosingFence;
      }
    }
    SplitJoin(lines);
  }
}
