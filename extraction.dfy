/** `extract_data_from_table`: the rows of the results table after the header
    become company records, read from fixed column positions. The HTML parser
    is replaced by the values it would produce: a row is the sequence of its
    `<td>` cells, a cell is its stripped text and the anchors inside it. */
module Extraction {
  import opened Py

  /** An `<a>` element: its classes, its `href` attribute if it has one, its stripped text. */
  datatype Anchor = Anchor(classes: seq<string>, href: Option<string>, text: string)

  /** A `<td>` cell: its stripped text and the anchors it contains, in document order. */
  datatype Cell = Cell(text: string, anchors: seq<Anchor>)

  /** A `<tr>` row, as the list of its `<td>` cells. */
  type Row = seq<Cell>

  /** One company, as the dictionary the source builds for a row. */
  datatype Azienda = Azienda(azienda: string, aziendaUrl: string, citta: string, provincia: string, fatturato: string)

  /** Class of the anchor holding the company name and link (column 0). */
  const CompanyClass: string := "azienda-table"
  /** Class of the anchors holding the city (column 1) and the province (column 2). */
  const PlaceClass: string := "nhref"

  /** Index of the first anchor from `from` on that carries class `cls`. */
  function FirstWithClass(anchors: seq<Anchor>, cls: string, from: nat): (r: Option<nat>)
    requires from <= |anchors|
    ensures r.Some? ==> from <= r.value < |anchors| && cls in anchors[r.value].classes
    ensures r.Some? ==> forall j :: from <= j < r.value ==> cls !in anchors[j].classes
    ensures r.None? ==> forall j :: from <= j < |anchors| ==> cls !in anchors[j].classes
    decreases |anchors| - from
  {
    if from == |anchors| then None
    else if cls in anchors[from].classes then Some(from)
    else FirstWithClass(anchors, cls, from + 1)
  }

  /** `cell.find("a", class_=cls)`: the first anchor in the cell with that class. */
  function Find(cell: Cell, cls: string): Option<Anchor> {
    match FirstWithClass(cell.anchors, cls, 0)
    case None => None
    case Some(i) => Some(cell.anchors[i])
  }

  /** `anchor.get("href", "")`. */
  function Href(a: Anchor): string {
    match a.href
    case None => ""
    case Some(h) => h
  }

  /** A row the source can read without raising: four cells, and the anchors
      it looks for in the first three. */
  predicate WellFormedRow(columns: Row) {
    |columns| >= 4
    && Find(columns[0], CompanyClass).Some?
    && Find(columns[1], PlaceClass).Some?
    && Find(columns[2], PlaceClass).Some?
  }

  /** The body of the loop for one row, in the order it touches the row: a
      missing cell raises `IndexError`, a missing anchor `AttributeError`
      (`None.get_text`). */
  function ExtractRow(columns: Row): (r: Result<Azienda>)
    ensures r.Ok? <==> WellFormedRow(columns)
    ensures r.Raised? ==> r.error != ValueError
    ensures r.Raised? && |columns| >= 4 ==> r.error == AttributeError
    ensures r.Ok? ==> r.value.azienda == Find(columns[0], CompanyClass).value.text
                      && r.value.aziendaUrl == Href(Find(columns[0], CompanyClass).value)
                      && r.value.citta == Find(columns[1], PlaceClass).value.text
                      && r.value.provincia == Find(columns[2], PlaceClass).value.text
                      && r.value.fatturato == columns[3].text
  {
    if |columns| < 1 then Raised(IndexError)
    else match Find(columns[0], CompanyClass)
    case None => Raised(AttributeError)
    case Some(company) =>
      if |columns| < 2 then Raised(IndexError)
      else match Find(columns[1], PlaceClass)
      case None => Raised(AttributeError)
      case Some(city) =>
        if |columns| < 3 then Raised(IndexError)
        else match Find(columns[2], PlaceClass)
        case None => Raised(AttributeError)
        case Some(province) =>
          if |columns| < 4 then Raised(IndexError)
          else Ok(Azienda(company.text, Href(company), city.text, province.text, columns[3].text))
  }

  /** `rows[1:]`: every row but the header. */
  function DataRows(rows: seq<Row>): (d: seq<Row>)
    ensures |d| == if |rows| == 0 then 0 else |rows| - 1
    ensures forall i :: 0 <= i < |d| ==> d[i] == rows[i + 1]
  {
    if |rows| == 0 then [] else rows[1..]
  }

  /** The records of the data rows, in order, or the exception of the first
      row that cannot be read. */
  function ExtractRows(dataRows: seq<Row>): Result<seq<Azienda>> {
    if dataRows == [] then Ok([])
    else match ExtractRows(dataRows[..|dataRows| - 1])
    case Raised(e) => Raised(e)
    case Ok(records) =>
      match ExtractRow(dataRows[|dataRows| - 1])
      case Raised(e) => Raised(e)
      case Ok(a) => Ok(records + [a])
  }

  /** What `extract_data_from_table` returns, or raises, for a table's rows. */
  function Extracted(rows: seq<Row>): Result<seq<Azienda>> {
    ExtractRows(DataRows(rows))
  }

  /** Reading succeeds exactly when every data row is well formed; then there
      is one record per data row, in row order; otherwise the exception is
      that of the first malformed row. */
  lemma {:induction false} ExtractRowsSpec(d: seq<Row>)
    ensures ExtractRows(d).Ok? <==> forall i :: 0 <= i < |d| ==> WellFormedRow(d[i])
    ensures ExtractRows(d).Ok? ==>
              |ExtractRows(d).value| == |d|
              && forall i :: 0 <= i < |d| ==> Ok(ExtractRows(d).value[i]) == ExtractRow(d[i])
    ensures ExtractRows(d).Raised? ==>
              exists k :: 0 <= k < |d| && ExtractRow(d[k]) == Raised(ExtractRows(d).error)
                          && forall j :: 0 <= j < k ==> WellFormedRow(d[j])
    decreases |d|
  {
    if d != [] {
      var prefix := d[..|d| - 1];
      ExtractRowsSpec(prefix);
      assert forall i :: 0 <= i < |prefix| ==> prefix[i] == d[i];
      if ExtractRows(prefix).Raised? {
        var k :| 0 <= k < |prefix| && ExtractRow(prefix[k]) == Raised(ExtractRows(prefix).error)
                 && forall j :: 0 <= j < k ==> WellFormedRow(prefix[j]);
        assert ExtractRow(d[k]) == Raised(ExtractRows(d).error);
        assert !WellFormedRow(d[k]);
      } else if ExtractRow(d[|d| - 1]).Raised? {
        assert ExtractRow(d[|d| - 1]) == Raised(ExtractRows(d).error);
      }
    }
  }

  /** Once a prefix of the data rows raises, so does the whole table, with the
      same exception. */
  lemma {:induction false} RaisedPrefixIsFinal(d: seq<Row>, k: nat)
    requires k <= |d|
    requires ExtractRows(d[..k]).Raised?
    ensures ExtractRows(d) == ExtractRows(d[..k])
    decreases |d| - k
  {
    if k < |d| {
      var prefix := d[..|d| - 1];
      assert prefix[..k] == d[..k];
      RaisedPrefixIsFinal(prefix, k);
    } else {
      assert d[..k] == d;
    }
  }

  /** The table gives one record per row after the header, each taken from the
      row one further down, exactly when all those rows are well formed. */
  lemma ExtractedRecords(rows: seq<Row>)
    ensures Extracted(rows).Ok? <==> forall i :: 1 <= i < |rows| ==> WellFormedRow(rows[i])
    ensures Extracted(rows).Ok? ==>
              |Extracted(rows).value| == (if |rows| == 0 then 0 else |rows| - 1)
              && forall i :: 0 <= i < |Extracted(rows).value| ==> Ok(Extracted(rows).value[i]) == ExtractRow(rows[i + 1])
    ensures |rows| <= 1 ==> Extracted(rows) == Ok([])
  {
    var d := DataRows(rows);
    ExtractRowsSpec(d);
    if Extracted(rows).Ok? {
      forall i | 1 <= i < |rows| ensures WellFormedRow(rows[i]) {
        assert rows[i] == d[i - 1];
      }
    } else {
      var k :| 0 <= k < |d| && ExtractRow(d[k]) == Raised(ExtractRows(d).error)
               && forall j :: 0 <= j < k ==> WellFormedRow(d[j]);
      assert !WellFormedRow(rows[k + 1]);
    }
  }

  /** `extract_data_from_table`: the loop over the rows after the header,
      appending one record per row; the first unreadable row raises. */
  method ExtractDataFromTable(rows: seq<Row>) returns (r: Result<seq<Azienda>>)
    ensures r == Extracted(rows)
  {
    var data: seq<Azienda> := [];
    var dataRows := DataRows(rows);
    var i := 0;
    while i < |dataRows|
      invariant 0 <= i <= |dataRows|
      invariant ExtractRows(dataRows[..i]) == Ok(data)
    {
      assert dataRows[..i + 1][..i] == dataRows[..i];
      var record := ExtractRow(dataRows[i]);
      if record.Raised? {
        RaisedPrefixIsFinal(dataRows, i + 1);
        return Raised(record.error);
      }
      data := data + [record.value];
      i := i + 1;
    }
    assert dataRows[..i] == dataRows;
    return Ok(data);
  }
}
