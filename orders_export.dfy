/**
 * The CSV export of the admin order list (`OrdersHeader`'s `handleExport`): a header
 * line of six column names, then one line per order that passes the same status and
 * search filter as the table. Fields are joined with "," and lines with "\n", with no
 * quoting and no trailing newline. The download of the text is not part of this model.
 */
module OrdersExport {
  import opened OrderStore
  import opened OrdersTable
  import Text
  import CsvFormat

  const Headers: seq<string> := ["Order Number", "Customer", "Date", "Items", "Total", "Status"]

  /** `headers.join(",")`. */
  const HeaderLine: string := Text.Join(Headers, ',')

  /** The six fields of an order's row, in column order. */
  function RowFields(order: Order): (r: seq<string>)
    ensures |r| == 6
    ensures r[0] == order.orderNumber && r[1] == order.customer.name && r[2] == order.date
    ensures (forall i :: 0 <= i < |r[3]| ==> Text.IsDigit(r[3][i])) && Text.DigitsValue(r[3]) == |order.items|
    ensures ',' !in r[4] && '\n' !in r[4]
    ensures r[5] == StatusName(order.status)
  {
    Text.DigitsValueOfNatToString(|order.items|);
    [order.orderNumber, order.customer.name, order.date,
     Text.NatToString(|order.items|), Text.FormatCents(order.total), StatusName(order.status)]
  }

  /** `rows.map(row => row.join(","))`. */
  function JoinRows(rows: seq<seq<string>>): (r: seq<string>)
    ensures |r| == |rows|
    ensures forall i :: 0 <= i < |rows| ==> r[i] == Text.Join(rows[i], ',')
  {
    if rows == [] then [] else [Text.Join(rows[0], ',')] + JoinRows(rows[1..])
  }

  /** The rows of the orders that pass the filter, in list order. */
  function ExportRows(orders: seq<Order>, query: string, filter: StatusFilter): (r: seq<seq<string>>)
    ensures |r| == |FilterOrders(orders, query, filter)|
    ensures forall i :: 0 <= i < |r| ==> r[i] == RowFields(FilterOrders(orders, query, filter)[i])
  {
    RowsOf(FilterOrders(orders, query, filter))
  }

  function RowsOf(orders: seq<Order>): (r: seq<seq<string>>)
    ensures |r| == |orders|
    ensures forall i :: 0 <= i < |orders| ==> r[i] == RowFields(orders[i])
  {
    if orders == [] then [] else [RowFields(orders[0])] + RowsOf(orders[1..])
  }

  /** `[headers.join(","), ...rows.map(row => row.join(","))].join("\n")`. */
  function Csv(orders: seq<Order>, query: string, filter: StatusFilter): string
  {
    Text.Join([HeaderLine] + JoinRows(ExportRows(orders, query, filter)), '\n')
  }

  // ---------------------------------------------------------------------------
  // Properties of the export

  /** A character in none of the parts and other than the separator is not in their join. */
  lemma {:induction false} JoinAvoids(parts: seq<string>, sep: char, c: char)
    requires c != sep
    requires forall i :: 0 <= i < |parts| ==> c !in parts[i]
    ensures c !in Text.Join(parts, sep)
  {
    if |parts| > 1 {
      JoinAvoids(parts[1..], sep, c);
    }
  }

  /** The header line is a single line. */
  lemma HeaderLineHasNoBreak()
    ensures '\n' !in HeaderLine
  {
    forall i | 0 <= i < |Headers| ensures '\n' !in Headers[i] {
    }
    JoinAvoids(Headers, ',', '\n');
  }

  /** The first line of the export is the header line, whatever the orders contain. */
  lemma FirstLineIsHeader(orders: seq<Order>, query: string, filter: StatusFilter)
    ensures Text.Split(Csv(orders, query, filter), '\n')[0] == HeaderLine
  {
    HeaderLineHasNoBreak();
    Text.SplitFirstPart([HeaderLine] + JoinRows(ExportRows(orders, query, filter)), '\n');
  }

  /** An order whose free-text fields hold neither separator. */
  predicate Plain(order: Order)
  {
    && ',' !in order.orderNumber && '\n' !in order.orderNumber
    && ',' !in order.customer.name && '\n' !in order.customer.name
    && ',' !in order.date && '\n' !in order.date
  }

  /** A plain order's fields hold neither separator. */
  lemma PlainRowFields(order: Order)
    requires Plain(order)
    ensures forall i :: 0 <= i < 6 ==> ',' !in RowFields(order)[i] && '\n' !in RowFields(order)[i]
  {
    var r := RowFields(order);
    Text.DigitsHaveNoSeparator(r[3]);
    var name := StatusName(order.status);
    assert ',' !in name && '\n' !in name by {
      match order.status
      case Pending =>
      case Processing =>
      case Completed =>
      case Cancelled =>
    }
  }

  /** A plain order's line holds no line break and splits back into its six fields. */
  lemma PlainLineSplitsBack(order: Order)
    requires Plain(order)
    ensures '\n' !in Text.Join(RowFields(order), ',')
    ensures Text.Split(Text.Join(RowFields(order), ','), ',') == RowFields(order)
  {
    PlainRowFields(order);
    JoinAvoids(RowFields(order), ',', '\n');
    Text.SplitJoin(RowFields(order), ',');
  }

  /** The lines of plain orders hold no line break and split back into their fields. */
  lemma DataLinesSplitBack(kept: seq<Order>)
    requires forall i :: 0 <= i < |kept| ==> Plain(kept[i])
    ensures forall i :: 0 <= i < |kept| ==>
      '\n' !in JoinRows(RowsOf(kept))[i] && Text.Split(JoinRows(RowsOf(kept))[i], ',') == RowFields(kept[i])
  {
    var lines := JoinRows(RowsOf(kept));
    forall i | 0 <= i < |kept|
      ensures '\n' !in lines[i] && Text.Split(lines[i], ',') == RowFields(kept[i])
    {
      assert lines[i] == Text.Join(RowFields(kept[i]), ',');
      PlainLineSplitsBack(kept[i]);
    }
  }

  /** A header and lines, none holding a line break, split back from their joined text. */
  lemma LinesSplitBack(header: string, rows: seq<string>)
    requires '\n' !in header
    requires forall i :: 0 <= i < |rows| ==> '\n' !in rows[i]
    ensures Text.Split(Text.Join([header] + rows, '\n'), '\n') == [header] + rows
  {
    var lines := [header] + rows;
    forall i | 0 <= i < |lines| ensures '\n' !in lines[i] {
      if i > 0 {
        assert lines[i] == rows[i - 1];
      }
    }
    Text.SplitJoin(lines, '\n');
  }

  /**
   * When the exported orders are plain, splitting the text on "\n" gives back the
   * header line and one line per exported order, and splitting each data line on ","
   * gives back exactly that order's six fields.
   */
  lemma ExportSplitsBack(orders: seq<Order>, query: string, filter: StatusFilter)
    requires forall o :: o in FilterOrders(orders, query, filter) ==> Plain(o)
    ensures var lines := Text.Split(Csv(orders, query, filter), '\n');
      && |lines| == 1 + |FilterOrders(orders, query, filter)|
      && lines[0] == HeaderLine
      && forall i :: 0 <= i < |FilterOrders(orders, query, filter)| ==>
           Text.Split(lines[i + 1], ',') == RowFields(FilterOrders(orders, query, filter)[i])
  {
    var kept := FilterOrders(orders, query, filter);
    forall i | 0 <= i < |kept| ensures Plain(kept[i]) {
      assert kept[i] in kept;
    }
    DataLinesSplitBack(kept);
    HeaderLineHasNoBreak();
    LinesSplitBack(HeaderLine, JoinRows(RowsOf(kept)));
    assert Csv(orders, query, filter) == Text.Join([HeaderLine] + JoinRows(RowsOf(kept)), '\n');
  }

  /** The exported rows are the rows of exactly the orders the table lists. */
  lemma ExportMatchesTable(s: OrderState, query: string, filter: StatusFilter)
    requires !s.isLoading && !ShowsError(s)
    ensures View(s, query, filter).Rows? ==> ExportRows(s.orders, query, filter) == RowsOf(View(s, query, filter).orders)
    ensures View(s, query, filter).EmptyNotice? <==> ExportRows(s.orders, query, filter) == []
  {
  }

  /**
   * A comma in a customer name is not escaped: that order's line splits into seven
   * fields, the name falling apart at its comma.
   */
  lemma CommaInNameShiftsFields(order: Order, left: string, right: string)
    requires order.customer.name == left + "," + right
    requires ',' !in left && ',' !in right && ',' !in order.orderNumber && ',' !in order.date
    ensures var fields := Text.Split(Text.Join(RowFields(order), ','), ',');
      |fields| == 7 && fields == [order.orderNumber, left, right] + RowFields(order)[2..]
  {
    var row := RowFields(order);
    var spread := row[..1] + [left, right] + row[2..];
    Text.JoinSplitPart(row, 1, left, right, ',');
    Text.DigitsHaveNoSeparator(row[3]);
    assert ',' !in row[5] by {
      match order.status
      case Pending =>
      case Processing =>
      case Completed =>
      case Cancelled =>
    }
    forall i | 0 <= i < |spread| ensures ',' !in spread[i] {
      if i >= 3 {
        assert spread[i] == row[i - 1];
      }
    }
    Text.SplitJoin(spread, ',');
  }

  // ---------------------------------------------------------------------------
  // The export with fields quoted as section 2 of RFC 4180 requires

  /** The same table, each field that needs it enclosed in double quotes. */
  function QuotedCsv(orders: seq<Order>, query: string, filter: StatusFilter): string
  {
    CsvFormat.Encode([Headers] + ExportRows(orders, query, filter))
  }

  /** Whatever the orders hold, the quoted export reads back as the header and six fields per exported order. */
  lemma QuotedExportReadsBack(orders: seq<Order>, query: string, filter: StatusFilter)
    ensures CsvFormat.Parse(QuotedCsv(orders, query, filter))
         == CsvFormat.Done(CsvFormat.Scan([Headers] + ExportRows(orders, query, filter), ""))
  {
    var table := [Headers] + ExportRows(orders, query, filter);
    forall i | 0 <= i < |table| ensures |table[i]| >= 1 {
      if i > 0 {
        assert table[i] == ExportRows(orders, query, filter)[i - 1];
      }
    }
    CsvFormat.ParseEncode(table);
  }

  /** An order none of whose free-text fields needs quoting. */
  predicate Unquoted(order: Order)
  {
    && !CsvFormat.NeedsQuotes(order.orderNumber)
    && !CsvFormat.NeedsQuotes(order.customer.name)
    && !CsvFormat.NeedsQuotes(order.date)
  }

  lemma UnquotedRow(order: Order)
    requires Unquoted(order)
    ensures CsvFormat.EncodeRecord(RowFields(order)) == Text.Join(RowFields(order), ',')
  {
    var r := RowFields(order);
    assert !CsvFormat.NeedsQuotes(r[3]) by {
      Text.DigitsHaveNoSeparator(r[3]);
      assert forall i :: 0 <= i < |r[3]| ==> r[3][i] != '"' && r[3][i] != '\r';
    }
    assert !CsvFormat.NeedsQuotes(r[4]) by {
      assert forall i :: 0 <= i < |r[4]| ==> r[4][i] != '"' && r[4][i] != '\r';
    }
    assert !CsvFormat.NeedsQuotes(r[5]) by {
      match order.status
      case Pending =>
      case Processing =>
      case Completed =>
      case Cancelled =>
    }
    CsvFormat.QuoteAllPlain(r);
  }

  /** The column names need no quoting. */
  lemma HeadersUnquoted()
    ensures CsvFormat.EncodeRecord(Headers) == Text.Join(Headers, ',')
  {
    forall i | 0 <= i < |Headers| ensures !CsvFormat.NeedsQuotes(Headers[i]) {
    }
    CsvFormat.QuoteAllPlain(Headers);
  }

  /** Quoting changes no line of a table of orders whose text needs no quoting. */
  lemma {:induction false} QuotedLinesOf(kept: seq<Order>)
    requires forall i :: 0 <= i < |kept| ==> Unquoted(kept[i])
    ensures CsvFormat.EncodeAll(RowsOf(kept)) == JoinRows(RowsOf(kept))
  {
    if kept != [] {
      UnquotedRow(kept[0]);
      QuotedLinesOf(kept[1..]);
      assert RowsOf(kept)[1..] == RowsOf(kept[1..]);
    }
  }

  /** For orders whose text needs no quoting, the quoted export is the export as it stands. */
  lemma QuotingKeepsOrdinaryExport(orders: seq<Order>, query: string, filter: StatusFilter)
    requires forall o :: o in FilterOrders(orders, query, filter) ==> Unquoted(o)
    ensures QuotedCsv(orders, query, filter) == Csv(orders, query, filter)
  {
    var kept := FilterOrders(orders, query, filter);
    assert forall i :: 0 <= i < |kept| ==> kept[i] in kept;
    QuotedLinesOf(kept);
    HeadersUnquoted();
    var table := [Headers] + RowsOf(kept);
    assert table[1..] == RowsOf(kept);
    assert CsvFormat.EncodeAll(table) == [CsvFormat.EncodeRecord(Headers)] + CsvFormat.EncodeAll(table[1..]);
  }
}
