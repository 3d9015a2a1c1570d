/** The chunked CSV writer for exported transactions (frontend/lib/transaction-csv-export.ts). */
module CsvExport {
  import opened Options
  import opened Strings

  datatype Transaction = Transaction(
    id: string, timestamp: int,
    fromAmount: string, fromAsset: string, toAmount: string, toAsset: string,
    exchangeRate: string, priceImpact: string, minReceived: string, networkFee: string,
    status: string, hash: Option<string>, errorMessage: Option<string>, walletAddress: string)

  datatype Column = Column(key: string, name: string)

  const ALL_EXPORT_COLUMNS: seq<Column> := [
    Column("id", "ID"), Column("date", "Date"), Column("fromAmount", "From Amount"),
    Column("fromAsset", "From Asset"), Column("toAmount", "To Amount"), Column("toAsset", "To Asset"),
    Column("exchangeRate", "Exchange Rate"), Column("priceImpact", "Price Impact"),
    Column("minReceived", "Min Received"), Column("networkFee", "Network Fee"), Column("status", "Status"),
    Column("hash", "Tx Hash"), Column("errorMessage", "Error Message"), Column("walletAddress", "Wallet Address")]

  // ---------------------------------------------------------------- the writer

  predicate NeedsQuotes(s: string) {
    ',' in s || '"' in s || '\n' in s || '\r' in s
  }

  /** Every quote doubled. */
  function Doubled(s: string): string {
    if s == "" then "" else (if s[0] == '"' then "\"\"" else [s[0]]) + Doubled(s[1..])
  }

  function Escape(s: string): string {
    if NeedsQuotes(s) then "\"" + Doubled(s) + "\"" else s
  }

  /** The text of one cell; `iso` is how a timestamp is printed. */
  function ValueOf(iso: int -> string, tx: Transaction, key: string): string {
    match key
    case "id" => tx.id
    case "date" => iso(tx.timestamp)
    case "fromAmount" => tx.fromAmount
    case "fromAsset" => tx.fromAsset
    case "toAmount" => tx.toAmount
    case "toAsset" => tx.toAsset
    case "exchangeRate" => tx.exchangeRate
    case "priceImpact" => tx.priceImpact
    case "minReceived" => tx.minReceived
    case "networkFee" => tx.networkFee
    case "status" => tx.status
    case "hash" => if tx.hash.Some? then tx.hash.value else ""
    case "errorMessage" => if tx.errorMessage.Some? then tx.errorMessage.value else ""
    case "walletAddress" => tx.walletAddress
    case _ => ""
  }

  function Find(columns: seq<Column>, key: string): Option<Column> {
    if columns == [] then None
    else if columns[0].key == key then Some(columns[0])
    else Find(columns[1..], key)
  }

  /** The selected columns that exist, in the order of selection. */
  function Active(selectedKeys: seq<string>): seq<Column> {
    if selectedKeys == [] then []
    else
      var column := Find(ALL_EXPORT_COLUMNS, selectedKeys[0]);
      (if column.Some? then [column.value] else []) + Active(selectedKeys[1..])
  }

  function Header(columns: seq<Column>): (names: seq<string>)
    ensures |names| == |columns|
  {
    seq(|columns|, i requires 0 <= i < |columns| => columns[i].name)
  }

  function Cells(iso: int -> string, tx: Transaction, columns: seq<Column>): (cells: seq<string>)
    ensures |cells| == |columns|
  {
    seq(|columns|, i requires 0 <= i < |columns| => ValueOf(iso, tx, columns[i].key))
  }

  function Escaped(cells: seq<string>): (parts: seq<string>)
    ensures |parts| == |cells|
  {
    seq(|cells|, i requires 0 <= i < |cells| => Escape(cells[i]))
  }

  function Line(cells: seq<string>): string {
    Join(Escaped(cells), ",")
  }

  function Table(iso: int -> string, txs: seq<Transaction>, columns: seq<Column>): (rows: seq<seq<string>>)
    ensures |rows| == |txs|
  {
    seq(|txs|, i requires 0 <= i < |txs| => Cells(iso, txs[i], columns))
  }

  /** The rows as lines, each with its line end. */
  function Lines(rows: seq<seq<string>>): string {
    if rows == [] then "" else Line(rows[0]) + "\n" + Lines(rows[1..])
  }

  method ChunkRows(iso: int -> string, chunk: seq<Transaction>, columns: seq<Column>) returns (text: string)
    requires chunk != []
    ensures text == Lines(Table(iso, chunk, columns))
  {
    var lines: seq<string> := seq(|chunk|, i requires 0 <= i < |chunk| => Line(Cells(iso, chunk[i], columns)));
    text := Join(lines, "\n") + "\n";
    JoinedLines(lines, Table(iso, chunk, columns));
  }

  lemma {:induction false} JoinedLines(lines: seq<string>, rows: seq<seq<string>>)
    requires |lines| == |rows| > 0 && forall i :: 0 <= i < |rows| ==> lines[i] == Line(rows[i])
    ensures Join(lines, "\n") + "\n" == Lines(rows)
    decreases |rows|
  {
    if |rows| == 1 {
      assert rows[1..] == [];
    } else {
      JoinedLines(lines[1..], rows[1..]);
      assert Join(lines, "\n") + "\n" == lines[0] + "\n" + (Join(lines[1..], "\n") + "\n");
    }
  }

  lemma {:induction false} LinesConcat(a: seq<seq<string>>, b: seq<seq<string>>)
    ensures Lines(a + b) == Lines(a) + Lines(b)
    decreases |a|
  {
    if a == [] {
      assert a + b == b;
    } else {
      LinesConcat(a[1..], b);
      assert (a + b)[1..] == a[1..] + b;
    }
  }

  lemma TableConcat(iso: int -> string, a: seq<Transaction>, b: seq<Transaction>, columns: seq<Column>)
    ensures Table(iso, a + b, columns) == Table(iso, a, columns) + Table(iso, b, columns)
  {
  }

  method WriteRows(iso: int -> string, transactions: seq<Transaction>, columns: seq<Column>, chunkSize: nat)
    returns (text: string, progress: seq<nat>)
    requires chunkSize >= 1
    ensures text == Lines(Table(iso, transactions, columns))
    ensures Reports(progress, chunkSize, |transactions|)
    ensures if transactions == [] then progress == []
            else progress != [] && progress[|progress| - 1] == |transactions|
  {
    text, progress := "", [];
    var i := 0;
    while i < |transactions|
      invariant AtMost(i, |transactions|) == Last(progress)
      invariant text == Lines(Table(iso, Written(transactions, i), columns))
      invariant Reports(progress, chunkSize, |transactions|)
      invariant transactions == [] ==> progress == []
      decreases |transactions| - i
    {
      var chunk := Written(transactions[i..], chunkSize);
      var rows := ChunkRows(iso, chunk, columns);
      NextChunk(iso, transactions, i, chunkSize, columns);
      text := text + rows;
      NextReport(progress, chunkSize, |transactions|, i + |chunk|);
      progress := progress + [i + |chunk|];
      i := i + chunkSize;
    }
    assert Written(transactions, i) == transactions;
  }

  /**
   * The export, written chunk by chunk. The text does not depend on the chunk size; `progress` is
   * how many transactions were written at each report.
   */
  method GenerateTransactionsCsv(iso: int -> string, transactions: seq<Transaction>, selectedKeys: seq<string>,
                                 chunkSize: nat)
    returns (csv: string, progress: seq<nat>)
    requires chunkSize >= 1
    ensures csv == Lines([Header(Active(selectedKeys))] + Table(iso, transactions, Active(selectedKeys)))
    ensures Reports(progress, chunkSize, |transactions|)
    ensures if transactions == [] then progress == []
            else progress != [] && progress[|progress| - 1] == |transactions|
  {
    var columns := Active(selectedKeys);
    LinesConcat([Header(columns)], Table(iso, transactions, columns));
    if transactions == [] {
      csv := HeaderAlone(selectedKeys);
      return csv, [];
    }
    var rows;
    rows, progress := WriteRows(iso, transactions, columns, chunkSize);
    csv := Line(Header(columns)) + "\n" + rows;
    OneLine(Header(columns));
  }

  lemma OneLine(cells: seq<string>)
    ensures Lines([cells]) == Line(cells) + "\n"
  {
    assert [cells][1..] == [];
    assert Line(cells) + "\n" + "" == Line(cells) + "\n";
  }

  /** The export of no transactions: the header, trimmed, and a line end. */
  method HeaderAlone(selectedKeys: seq<string>) returns (csv: string)
    ensures csv == Lines([Header(Active(selectedKeys))])
  {
    csv := Line(Header(Active(selectedKeys))) + "\n";
    HeaderIsTrimmed(selectedKeys);
    OneLine(Header(Active(selectedKeys)));
    csv := Trim(csv) + "\n";
  }

  /** `transactions.slice(0, n)`. */
  function Written(transactions: seq<Transaction>, n: nat): seq<Transaction> {
    if n <= |transactions| then transactions[..n] else transactions
  }

  /** Each report is one chunk further than the one before, up to the total. */
  predicate Reports(progress: seq<nat>, chunkSize: nat, total: nat) {
    forall i :: 0 <= i < |progress| ==> progress[i] == AtMost((if i == 0 then 0 else progress[i - 1]) + chunkSize, total)
  }

  function Last(progress: seq<nat>): nat {
    if progress == [] then 0 else progress[|progress| - 1]
  }

  function AtMost(n: nat, total: nat): nat {
    if n <= total then n else total
  }

  lemma NextReport(progress: seq<nat>, chunkSize: nat, total: nat, report: nat)
    requires Reports(progress, chunkSize, total)
    requires report == AtMost((Last(progress)) + chunkSize, total)
    ensures Reports(progress + [report], chunkSize, total)
  {
  }

  lemma NextChunk(iso: int -> string, txs: seq<Transaction>, i: nat, chunkSize: nat, columns: seq<Column>)
    requires i <= |txs|
    ensures Lines(Table(iso, Written(txs, i + chunkSize), columns)) ==
            Lines(Table(iso, Written(txs, i), columns)) + Lines(Table(iso, Written(txs[i..], chunkSize), columns))
  {
    var chunk := Written(txs[i..], chunkSize);
    assert Written(txs, i + chunkSize) == txs[..i] + chunk;
    TableConcat(iso, txs[..i], chunk, columns);
    LinesConcat(Table(iso, txs[..i], columns), Table(iso, chunk, columns));
  }

  // ---------------------------------------------------------------- the header on its own

  predicate Trimmed(s: string) {
    s != "" && !IsSpace(s[0]) && !IsSpace(s[|s| - 1])
  }

  lemma KnownNames(i: nat)
    requires i < |ALL_EXPORT_COLUMNS|
    ensures Trimmed(ALL_EXPORT_COLUMNS[i].name)
  {
  }

  lemma {:induction false} FoundIsKnown(columns: seq<Column>, key: string)
    requires forall i :: 0 <= i < |columns| ==> Trimmed(columns[i].name)
    requires Find(columns, key).Some?
    ensures Trimmed(Find(columns, key).value.name)
    decreases |columns|
  {
    if columns[0].key != key {
      FoundIsKnown(columns[1..], key);
    }
  }

  lemma {:induction false} ActiveAreKnown(selectedKeys: seq<string>, i: nat)
    requires i < |Active(selectedKeys)|
    ensures Trimmed(Active(selectedKeys)[i].name)
    decreases |selectedKeys|
  {
    forall k | 0 <= k < |ALL_EXPORT_COLUMNS|
      ensures Trimmed(ALL_EXPORT_COLUMNS[k].name)
    {
      KnownNames(k);
    }
    var column := Find(ALL_EXPORT_COLUMNS, selectedKeys[0]);
    var found := if column.Some? then [column.value] else [];
    if i < |found| {
      FoundIsKnown(ALL_EXPORT_COLUMNS, selectedKeys[0]);
    } else {
      ActiveAreKnown(selectedKeys[1..], i - |found|);
    }
  }

  lemma {:induction false} JoinIsTrimmed(parts: seq<string>)
    requires parts != [] && forall i :: 0 <= i < |parts| ==> Trimmed(parts[i])
    ensures Trimmed(Join(parts, ","))
    decreases |parts|
  {
    if |parts| > 1 {
      JoinIsTrimmed(parts[1..]);
      var rest := Join(parts[1..], ",");
      assert Join(parts, ",")[|Join(parts, ",")| - 1] == rest[|rest| - 1];
    }
  }

  lemma EscapeIsTrimmed(s: string)
    requires Trimmed(s)
    ensures Trimmed(Escape(s))
  {
    if NeedsQuotes(s) {
      assert Escape(s)[|Escape(s)| - 1] == '"';
    }
  }

  /** Trimming a header that stands alone only removes its line end. */
  lemma HeaderIsTrimmed(selectedKeys: seq<string>)
    ensures Trim(Line(Header(Active(selectedKeys))) + "\n") == Line(Header(Active(selectedKeys)))
  {
    var columns := Active(selectedKeys);
    var parts := Escaped(Header(columns));
    var line := Line(Header(columns));
    if columns == [] {
      assert line == "" && line + "\n" == "\n";
      assert "\n"[1..] == "" && TrimStart("\n") == TrimStart("") == "";
    } else {
      forall i | 0 <= i < |parts| ensures Trimmed(parts[i]) {
        ActiveAreKnown(selectedKeys, i);
        EscapeIsTrimmed(columns[i].name);
      }
      JoinIsTrimmed(parts);
      TrimDropsLineEnd(line);
    }
  }

  lemma TrimDropsLineEnd(line: string)
    requires Trimmed(line)
    ensures Trim(line + "\n") == line
  {
    var text := line + "\n";
    assert text[|line|] == '\n' && text[..|line|] == line;
    assert TrimStart(text) == text;
    assert TrimEnd(text) == TrimEnd(line) == line;
  }

  // ---------------------------------------------------------------- what the columns show

  /** Exporting every column shows every field of the transaction, in the order of the header. */
  lemma EveryColumnShows(iso: int -> string, tx: Transaction)
    ensures Cells(iso, tx, ALL_EXPORT_COLUMNS) == [
      tx.id, iso(tx.timestamp), tx.fromAmount, tx.fromAsset, tx.toAmount, tx.toAsset, tx.exchangeRate,
      tx.priceImpact, tx.minReceived, tx.networkFee, tx.status, OrBlank(tx.hash), OrBlank(tx.errorMessage),
      tx.walletAddress]
  {
  }

  function OrBlank(text: Option<string>): string {
    if text.Some? then text.value else ""
  }
}
