/**
 The audit log export, and a parser for it: comma-separated records broken by line
 feeds, with the quoting of section 2 of RFC 4180.
 */
module CsvExport {
  import opened Wrappers

  /** An audit row as text: timestamps and metadata are already rendered. */
  datatype AuditRow = AuditRow(
    id: string, tenantId: string, actorId: string, actorType: string, action: string, resourceType: string,
    resourceId: string, operationId: Option<string>, ipAddress: Option<string>, createdAt: string, metadata: string)

  datatype Column =
    | Id | TenantId | ActorId | ActorType | Action | ResourceType
    | ResourceId | OperationId | IpAddress | CreatedAt | Metadata

  const COLUMNS: seq<Column> := [
    Id, TenantId, ActorId, ActorType, Action, ResourceType, ResourceId, OperationId, IpAddress, CreatedAt, Metadata]

  function Header(c: Column): string {
    match c
    case Id => "id"
    case TenantId => "tenant_id"
    case ActorId => "actor_id"
    case ActorType => "actor_type"
    case Action => "action"
    case ResourceType => "resource_type"
    case ResourceId => "resource_id"
    case OperationId => "operation_id"
    case IpAddress => "ip_address"
    case CreatedAt => "created_at"
    case Metadata => "metadata"
  }

  function OrEmpty(x: Option<string>): string {
    if x.Some? then x.value else ""
  }

  function Value(row: AuditRow, c: Column): string {
    match c
    case Id => row.id
    case TenantId => row.tenantId
    case ActorId => row.actorId
    case ActorType => row.actorType
    case Action => row.action
    case ResourceType => row.resourceType
    case ResourceId => row.resourceId
    case OperationId => OrEmpty(row.operationId)
    case IpAddress => OrEmpty(row.ipAddress)
    case CreatedAt => row.createdAt
    case Metadata => row.metadata
  }

  function Headers(columns: seq<Column>): (r: seq<string>)
    ensures |r| == |columns| && forall j | 0 <= j < |r| :: r[j] == Header(columns[j])
  {
    if columns == [] then [] else [Header(columns[0])] + Headers(columns[1..])
  }

  function Cells(row: AuditRow, columns: seq<Column>): (r: seq<string>)
    ensures |r| == |columns| && forall j | 0 <= j < |r| :: r[j] == Value(row, columns[j])
  {
    if columns == [] then [] else [Value(row, columns[0])] + Cells(row, columns[1..])
  }

  // ----------------------------------------------------------------- writing

  predicate FormulaChar(c: char) {
    c == '=' || c == '+' || c == '-' || c == '@'
  }

  function Neutralise(value: string): string {
    if value != "" && FormulaChar(value[0]) then ['\''] + value else value
  }

  predicate Special(c: char) {
    c == '"' || c == ',' || c == '\n'
  }

  predicate Plain(s: string) {
    forall c | c in s :: !Special(c)
  }

  function DoubleQuotes(s: string): string {
    if s == "" then "" else (if s[0] == '"' then ['"', '"'] else [s[0]]) + DoubleQuotes(s[1..])
  }

  function CsvEscape(value: string): string {
    var safe := Neutralise(value);
    if Plain(safe) then safe else ['"'] + DoubleQuotes(safe) + ['"']
  }

  function Join(parts: seq<string>, separator: char): string
    requires parts != []
  {
    if |parts| == 1 then parts[0] else parts[0] + [separator] + Join(parts[1..], separator)
  }

  function EscapeAll(cells: seq<string>): (r: seq<string>)
    ensures |r| == |cells|
  {
    if cells == [] then [] else [CsvEscape(cells[0])] + EscapeAll(cells[1..])
  }

  function Lines(rows: seq<AuditRow>, columns: seq<Column>): (r: seq<string>)
    requires columns != []
    ensures |r| == |rows|
  {
    if rows == [] then [] else [Join(EscapeAll(Cells(rows[0], columns)), ',')] + Lines(rows[1..], columns)
  }

  function Export(rows: seq<AuditRow>, columns: seq<Column>): string
    requires columns != []
  {
    Join([Join(Headers(columns), ',')] + Lines(rows, columns), '\n')
  }

  function ExportCsv(rows: seq<AuditRow>): string {
    Export(rows, COLUMNS)
  }

  // ----------------------------------------------------------------- reading

  /** The text up to the first separator. */
  function TakePlain(text: string): (r: (string, string))
    ensures |r.1| <= |text|
  {
    if text == "" || text[0] == ',' || text[0] == '\n' then ("", text)
    else var (s, rest) := TakePlain(text[1..]); ([text[0]] + s, rest)
  }

  /** The text up to the closing quote; a doubled quote stands for one. */
  function TakeQuoted(text: string): (r: Option<(string, string)>)
    ensures r.Some? ==> |r.value.1| < |text|
  {
    if text == "" then None
    else if text[0] != '"' then
      match TakeQuoted(text[1..])
      case None => None
      case Some(p) => Some(([text[0]] + p.0, p.1))
    else if |text| > 1 && text[1] == '"' then
      match TakeQuoted(text[2..])
      case None => None
      case Some(p) => Some((['"'] + p.0, p.1))
    else Some(("", text[1..]))
  }

  function ParseField(text: string): (r: Option<(string, string)>)
    ensures r.Some? ==> |r.value.1| <= |text|
  {
    if text != "" && text[0] == '"' then TakeQuoted(text[1..]) else Some(TakePlain(text))
  }

  function ParseRecord(text: string): (r: Option<(seq<string>, string)>)
    ensures r.Some? ==> |r.value.1| <= |text|
    decreases |text|
  {
    match ParseField(text)
    case None => None
    case Some(p) =>
      if p.1 == "" || p.1[0] != ',' then Some(([p.0], p.1))
      else
        match ParseRecord(p.1[1..])
        case None => None
        case Some(q) => Some(([p.0] + q.0, q.1))
  }

  function Parse(text: string): Option<seq<seq<string>>>
    decreases |text|
  {
    match ParseRecord(text)
    case None => None
    case Some(p) =>
      if p.1 == "" then Some([p.0])
      else if p.1[0] != '\n' then None
      else
        match Parse(p.1[1..])
        case None => None
        case Some(more) => Some([p.0] + more)
  }

  // --------------------------------------------------------------- round trip

  /** What may follow a field: a separator or the end. */
  predicate Follows(rest: string) {
    rest == "" || rest[0] == ',' || rest[0] == '\n'
  }

  lemma {:induction false} PlainReadsBack(s: string, rest: string)
    requires Plain(s) && Follows(rest)
    ensures TakePlain(s + rest) == (s, rest)
  {
    if s == "" {
      assert s + rest == rest;
    } else {
      assert (s + rest)[1..] == s[1..] + rest && (s + rest)[0] == s[0] && s[0] in s;
      PlainReadsBack(s[1..], rest);
      assert [s[0]] + s[1..] == s;
    }
  }

  lemma {:induction false} QuotedReadsBack(s: string, rest: string)
    requires Follows(rest)
    ensures TakeQuoted(DoubleQuotes(s) + (['"'] + rest)) == Some((s, rest))
  {
    var text := DoubleQuotes(s) + (['"'] + rest);
    if s == "" {
      assert text == ['"'] + rest && text[1..] == rest;
    } else {
      QuotedReadsBack(s[1..], rest);
      var tail := DoubleQuotes(s[1..]) + (['"'] + rest);
      assert [s[0]] + s[1..] == s;
      if s[0] == '"' {
        assert text == ['"', '"'] + tail && text[2..] == tail;
      } else {
        assert text == [s[0]] + tail && text[1..] == tail;
      }
    }
  }

  /** Reading an escaped cell gives the neutralised cell and leaves what follows. */
  lemma FieldReadsBack(value: string, rest: string)
    requires Follows(rest)
    ensures ParseField(CsvEscape(value) + rest) == Some((Neutralise(value), rest))
  {
    var safe := Neutralise(value);
    if Plain(safe) {
      PlainField(safe, rest);
    } else {
      QuotedField(safe, rest);
    }
  }

  lemma PlainField(s: string, rest: string)
    requires Plain(s) && Follows(rest)
    ensures ParseField(s + rest) == Some((s, rest))
  {
    PlainReadsBack(s, rest);
    if s == "" {
      assert s + rest == rest;
    } else {
      assert (s + rest)[0] == s[0] && s[0] in s;
    }
  }

  lemma QuotedField(s: string, rest: string)
    requires Follows(rest)
    ensures ParseField(['"'] + DoubleQuotes(s) + ['"'] + rest) == Some((s, rest))
  {
    QuotedReadsBack(s, rest);
    var text := ['"'] + DoubleQuotes(s) + ['"'] + rest;
    assert text == ['"'] + (DoubleQuotes(s) + (['"'] + rest));
    assert text[1..] == DoubleQuotes(s) + (['"'] + rest);
  }

  function NeutraliseAll(cells: seq<string>): (r: seq<string>)
    ensures |r| == |cells| && forall j | 0 <= j < |r| :: r[j] == Neutralise(cells[j])
  {
    if cells == [] then [] else [Neutralise(cells[0])] + NeutraliseAll(cells[1..])
  }

  lemma JoinUnfolds(first: string, more: seq<string>, separator: char)
    requires more != []
    ensures Join([first] + more, separator) == first + ([separator] + Join(more, separator))
  {
    assert ([first] + more)[1..] == more;
  }

  /** One field and a separator in front of a record already read. */
  lemma RecordExtends(value: string, tail: string, cells: seq<string>, rest: string)
    requires ParseRecord(tail) == Some((cells, rest))
    ensures ParseRecord(CsvEscape(value) + ([','] + tail)) == Some(([Neutralise(value)] + cells, rest))
  {
    FieldReadsBack(value, [','] + tail);
    assert ([','] + tail)[1..] == tail;
  }

  lemma SingleFieldRecord(value: string, rest: string)
    requires rest == "" || rest[0] == '\n'
    ensures ParseRecord(CsvEscape(value) + rest) == Some(([Neutralise(value)], rest))
  {
    FieldReadsBack(value, rest);
  }

  lemma JoinedTextUnfolds(first: string, more: seq<string>, rest: string)
    requires more != []
    ensures Join([first] + more, ',') + rest == first + ([','] + (Join(more, ',') + rest))
  {
    JoinUnfolds(first, more, ',');
    var tail := Join(more, ',');
    assert (first + ([','] + tail)) + rest == first + ([','] + (tail + rest));
  }

  /** The escaped text of a record of two or more cells. */
  lemma RecordUnfolds(cells: seq<string>, rest: string)
    requires |cells| > 1
    ensures Join(EscapeAll(cells), ',') + rest ==
            CsvEscape(cells[0]) + ([','] + (Join(EscapeAll(cells[1..]), ',') + rest))
    ensures NeutraliseAll(cells) == [Neutralise(cells[0])] + NeutraliseAll(cells[1..])
  {
    JoinedTextUnfolds(CsvEscape(cells[0]), EscapeAll(cells[1..]), rest);
  }

  lemma SingleCellRecord(cells: seq<string>, rest: string)
    requires |cells| == 1 && (rest == "" || rest[0] == '\n')
    ensures ParseRecord(Join(EscapeAll(cells), ',') + rest) == Some((NeutraliseAll(cells), rest))
  {
    SingleFieldRecord(cells[0], rest);
    assert EscapeAll(cells) == [CsvEscape(cells[0])];
    assert NeutraliseAll(cells) == [Neutralise(cells[0])];
  }

  lemma {:induction false} RecordReadsBack(cells: seq<string>, rest: string)
    requires cells != [] && (rest == "" || rest[0] == '\n')
    ensures ParseRecord(Join(EscapeAll(cells), ',') + rest) == Some((NeutraliseAll(cells), rest))
    decreases |cells|
  {
    if |cells| == 1 {
      SingleCellRecord(cells, rest);
    } else {
      RecordReadsBack(cells[1..], rest);
      RecordUnfolds(cells, rest);
      RecordExtends(cells[0], Join(EscapeAll(cells[1..]), ',') + rest, NeutraliseAll(cells[1..]), rest);
    }
  }

  /** The records the rows are exported as. */
  function Records(rows: seq<AuditRow>, columns: seq<Column>): (r: seq<seq<string>>)
    ensures |r| == |rows| && forall i | 0 <= i < |r| :: r[i] == NeutraliseAll(Cells(rows[i], columns))
  {
    if rows == [] then [] else [NeutraliseAll(Cells(rows[0], columns))] + Records(rows[1..], columns)
  }

  /** A record and a line break in front of text already read. */
  lemma TextExtends(cells: seq<string>, more: string, records: seq<seq<string>>)
    requires cells != [] && Parse(more) == Some(records)
    ensures Parse(Join(EscapeAll(cells), ',') + (['\n'] + more)) == Some([NeutraliseAll(cells)] + records)
  {
    RecordReadsBack(cells, ['\n'] + more);
    assert (['\n'] + more)[1..] == more;
  }

  lemma LastLineReadsBack(cells: seq<string>)
    requires cells != []
    ensures Parse(Join(EscapeAll(cells), ',')) == Some([NeutraliseAll(cells)])
  {
    RecordReadsBack(cells, "");
    assert Join(EscapeAll(cells), ',') + "" == Join(EscapeAll(cells), ',');
  }

  lemma {:induction false} LinesReadBack(first: seq<string>, rows: seq<AuditRow>, columns: seq<Column>)
    requires first != [] && columns != []
    ensures Parse(Join([Join(EscapeAll(first), ',')] + Lines(rows, columns), '\n'))
            == Some([NeutraliseAll(first)] + Records(rows, columns))
    decreases |rows|
  {
    var line := Join(EscapeAll(first), ',');
    if rows == [] {
      LastLineReadsBack(first);
      assert [line] + Lines(rows, columns) == [line];
      assert [NeutraliseAll(first)] + Records(rows, columns) == [NeutraliseAll(first)];
    } else {
      LinesReadBack(Cells(rows[0], columns), rows[1..], columns);
      JoinUnfolds(line, Lines(rows, columns), '\n');
      TextExtends(first, Join(Lines(rows, columns), '\n'), Records(rows, columns));
    }
  }

  lemma HeaderIsPlain(c: Column)
    ensures Plain(Header(c)) && Neutralise(Header(c)) == Header(c)
  {
  }

  lemma {:induction false} HeadersEscapeToThemselves(columns: seq<Column>)
    ensures EscapeAll(Headers(columns)) == Headers(columns) == NeutraliseAll(Headers(columns))
  {
    if columns != [] {
      HeaderIsPlain(columns[0]);
      HeadersEscapeToThemselves(columns[1..]);
    }
  }

  /** What a reader of the export sees: the header, then the neutralised cells of every row, column by column. */
  ghost predicate ReadsAs(records: seq<seq<string>>, rows: seq<AuditRow>, columns: seq<Column>) {
    && |records| == 1 + |rows|
    && (forall record | record in records :: |record| == |columns|)
    && (forall j | 0 <= j < |columns| :: records[0][j] == Header(columns[j]))
    && (forall i, j | 0 <= i < |rows| && 0 <= j < |columns| ::
          records[1 + i][j] == Neutralise(Value(rows[i], columns[j])))
  }

  lemma RecordsReadAs(rows: seq<AuditRow>, columns: seq<Column>)
    ensures ReadsAs([Headers(columns)] + Records(rows, columns), rows, columns)
  {
    var records := [Headers(columns)] + Records(rows, columns);
    assert forall i | 0 <= i < |rows| :: records[1 + i] == NeutraliseAll(Cells(rows[i], columns));
  }

  lemma ReadsBack(rows: seq<AuditRow>, columns: seq<Column>)
    requires columns != []
    ensures Parse(Export(rows, columns)).Some? && ReadsAs(Parse(Export(rows, columns)).value, rows, columns)
  {
    HeadersEscapeToThemselves(columns);
    LinesReadBack(Headers(columns), rows, columns);
    RecordsReadAs(rows, columns);
  }

  /** Parsing an export gives back the header and, for any cell text, exactly the neutralised cells. */
  lemma ExportReadsBack(rows: seq<AuditRow>)
    ensures Parse(ExportCsv(rows)).Some? && ReadsAs(Parse(ExportCsv(rows)).value, rows, COLUMNS)
  {
    ReadsBack(rows, COLUMNS);
  }

  /** No exported cell opens with a formula character. */
  lemma NoCellIsAFormula(rows: seq<AuditRow>, columns: seq<Column>, i: nat, j: nat)
    requires i < |rows| && j < |columns|
    ensures var records := Parse(Export(rows, columns));
            && records.Some? && 1 + i < |records.value| && j < |records.value[1 + i]|
            && (records.value[1 + i][j] == "" || !FormulaChar(records.value[1 + i][j][0]))
  {
    ReadsBack(rows, columns);
    var records := Parse(Export(rows, columns)).value;
    assert records[1 + i] in records;
    assert records[1 + i][j] == Neutralise(Value(rows[i], columns[j]));
  }

  /** Exactly what neutralising forgets: whether the quote before a formula character was there already. */
  lemma NeutraliseMergesOnly(x: string, y: string)
    ensures Neutralise(x) == Neutralise(y) <==> x == y || QuotedFormula(x, y) || QuotedFormula(y, x)
  {
    if Neutralise(x) == Neutralise(y) && Neutralise(x) != x && Neutralise(y) != y {
      assert Neutralise(x)[1..] == x && Neutralise(y)[1..] == y;
    }
  }

  predicate QuotedFormula(x: string, y: string) {
    y != "" && FormulaChar(y[0]) && x == ['\''] + y
  }
}
