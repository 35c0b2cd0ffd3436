/**
 * The bank-statement importer: header normalisation, the choice of one column
 * per expense field among its aliases, the row-by-row building of expenses,
 * and the quick structure check run before it.
 *
 * A file is given as the table the CSV reader produced: the header row and,
 * for every data row, one cell per header. Each cell carries its text and what
 * the number and date converters make of it, so the reader's own parsing stays
 * outside the model.
 */
module CsvService {
  import opened Common

  // ---------------------------------------------------------------------------
  // Header normalisation: `col.lower().strip()`
  // ---------------------------------------------------------------------------

  predicate IsUpper(c: char)
  {
    'A' <= c <= 'Z'
  }

  function LowerChar(c: char): (r: char)
    ensures !IsUpper(r)
    ensures !IsUpper(c) ==> r == c
  {
    if IsUpper(c) then (c as int + 32) as char else c
  }

  function Lower(s: string): (r: string)
    ensures |r| == |s|
    ensures forall i :: 0 <= i < |s| ==> r[i] == LowerChar(s[i])
  {
    seq(|s|, i requires 0 <= i < |s| => LowerChar(s[i]))
  }

  /** The ASCII characters Python's `str.isspace` accepts: space, `\t`..`\r` and `\x1c`..`\x1f`. */
  predicate IsSpace(c: char)
  {
    c == ' ' || '\t' <= c <= '\r' || '\U{1C}' <= c <= '\U{1F}'
  }

  /** Drops leading whitespace: the result is a suffix of `s` that starts with a non-space. */
  function TrimStart(s: string): (r: string)
    ensures |r| <= |s| && r == s[|s| - |r|..]
    ensures forall i :: 0 <= i < |s| - |r| ==> IsSpace(s[i])
    ensures r == [] || !IsSpace(r[0])
  {
    if s != [] && IsSpace(s[0]) then TrimStart(s[1..]) else s
  }

  /** Drops trailing whitespace: the result is a prefix of `s` that ends with a non-space. */
  function TrimEnd(s: string): (r: string)
    ensures |r| <= |s| && r == s[..|r|]
    ensures forall i :: |r| <= i < |s| ==> IsSpace(s[i])
    ensures r == [] || !IsSpace(r[|r| - 1])
  {
    if s != [] && IsSpace(s[|s| - 1]) then TrimEnd(s[..|s| - 1]) else s
  }

  /**
   * `col.lower().strip()`: no upper-case letter, and neither leading nor
   * trailing whitespace; `NormalizeIsStrippedLower` shows that exactly the
   * edge whitespace of the lower-cased header is cut.
   */
  function Normalize(col: string): (r: string)
    ensures r == [] || (!IsSpace(r[0]) && !IsSpace(r[|r| - 1]))
    ensures forall i :: 0 <= i < |r| ==> !IsUpper(r[i])
  {
    var low := Lower(col);
    StripKeepsLower(low);
    TrimEnd(TrimStart(low))
  }

  /**
   * A normalised header is the lower-cased header with exactly its leading and
   * trailing whitespace cut off.
   */
  lemma NormalizeIsStrippedLower(col: string)
    ensures exists a, b :: (0 <= a <= b <= |col| && Normalize(col) == Lower(col)[a..b]
      && (forall i :: 0 <= i < a ==> IsSpace(col[i]))
      && (forall i :: b <= i < |col| ==> IsSpace(col[i])))
  {
    LowerKeepsSpaces(col);
    StripWitness(col, Lower(col));
  }

  /** Stripping a string whose whitespace sits where `col`'s does cuts it between two runs of `col`'s whitespace. */
  lemma StripWitness(col: string, low: string)
    requires |low| == |col|
    requires forall i :: 0 <= i < |col| ==> (IsSpace(low[i]) <==> IsSpace(col[i]))
    ensures exists a, b :: (0 <= a <= b <= |col| && TrimEnd(TrimStart(low)) == low[a..b]
      && (forall i :: 0 <= i < a ==> IsSpace(col[i]))
      && (forall i :: b <= i < |col| ==> IsSpace(col[i])))
  {
    var front := TrimStart(low);
    var r := TrimEnd(front);
    SliceWitness(col, low, front, r);
  }

  /**
   * When `r` is a prefix of a suffix of `low`, and everything cut off is
   * whitespace in `low` and hence in `col`, `r` is a slice of `low` between
   * two runs of `col`'s whitespace.
   */
  lemma SliceWitness(col: string, low: string, front: string, r: string)
    requires |low| == |col|
    requires forall i :: 0 <= i < |col| ==> (IsSpace(low[i]) <==> IsSpace(col[i]))
    requires |front| <= |low| && front == low[|low| - |front|..]
    requires forall i :: 0 <= i < |low| - |front| ==> IsSpace(low[i])
    requires |r| <= |front| && r == front[..|r|]
    requires forall i :: |r| <= i < |front| ==> IsSpace(front[i])
    ensures exists a, b :: (0 <= a <= b <= |col| && r == low[a..b]
      && (forall i :: 0 <= i < a ==> IsSpace(col[i]))
      && (forall i :: b <= i < |col| ==> IsSpace(col[i])))
  {
    PrefixOfSuffix(low, front, r);
    var a := |low| - |front|;
    var b := a + |r|;
    assert r == low[a..b];
  }

  /** Lower-casing leaves whitespace where it was: a capital letter is not whitespace. */
  lemma LowerKeepsSpaces(col: string)
    ensures forall i :: 0 <= i < |col| ==> (IsSpace(Lower(col)[i]) <==> IsSpace(col[i]))
  {
  }

  /** A prefix of a suffix is a slice, and what both cuts drop is whitespace. */
  lemma PrefixOfSuffix(s: string, front: string, r: string)
    requires |front| <= |s| && front == s[|s| - |front|..]
    requires |r| <= |front| && r == front[..|r|]
    requires forall i :: |r| <= i < |front| ==> IsSpace(front[i])
    ensures r == s[|s| - |front|..|s| - |front| + |r|]
    ensures forall i :: |s| - |front| + |r| <= i < |s| ==> IsSpace(s[i])
  {
    var a := |s| - |front|;
    forall i | a + |r| <= i < |s| ensures IsSpace(s[i]) {
      assert s[i] == front[i - a];
    }
  }

  /** Trimming only removes characters, so a string without capitals stays without capitals. */
  lemma StripKeepsLower(s: string)
    requires forall i :: 0 <= i < |s| ==> !IsUpper(s[i])
    ensures forall i :: 0 <= i < |TrimEnd(TrimStart(s))| ==> !IsUpper(TrimEnd(TrimStart(s))[i])
  {
    var front := TrimStart(s);
    forall i | 0 <= i < |front| ensures !IsUpper(front[i]) {
      assert front[i] == s[|s| - |front| + i];
    }
    var r := TrimEnd(front);
    forall i | 0 <= i < |r| ensures !IsUpper(r[i]) {
      assert r[i] == front[i];
    }
  }

  /** Normalising twice is normalising once: a normalised header is a fixed point. */
  lemma NormalizeIdempotent(col: string)
    ensures Normalize(Normalize(col)) == Normalize(col)
  {
    var n := Normalize(col);
    assert Lower(n) == n;
    assert TrimStart(n) == n;
    assert TrimEnd(n) == n;
  }

  function NormalizeAll(cols: seq<string>): (r: seq<string>)
    ensures |r| == |cols|
    ensures forall i :: 0 <= i < |cols| ==> r[i] == Normalize(cols[i])
  {
    seq(|cols|, i requires 0 <= i < |cols| => Normalize(cols[i]))
  }

  // ---------------------------------------------------------------------------
  // Column mapping
  // ---------------------------------------------------------------------------

  /** The expense fields a column can be mapped to, in the order the mapping visits them. */
  datatype Target = DateField | AmountField | DescriptionField

  const Targets: seq<Target> := [DateField, AmountField, DescriptionField]

  /** The name a missing mapping is reported under (the key of the failed lookup). */
  function TargetName(t: Target): string
  {
    match t
    case DateField => "date"
    case AmountField => "amount"
    case DescriptionField => "description"
  }

  /** The accepted header names for each field, most preferred first. */
  function Aliases(t: Target): seq<string>
  {
    match t
    case DateField => ["date", "transaction_date", "posted_date"]
    case AmountField => ["amount", "debit", "transaction_amount"]
    case DescriptionField => ["description", "memo", "payee", "merchant"]
  }

  /** The position in `aliases` of the first alias present among `cols`, if any. */
  function FirstPresent(aliases: seq<string>, cols: seq<string>): (k: Option<nat>)
    ensures k.Some? ==> k.value < |aliases| && aliases[k.value] in cols
    ensures k.Some? ==> forall j :: 0 <= j < k.value ==> aliases[j] !in cols
    ensures k.None? <==> forall j :: 0 <= j < |aliases| ==> aliases[j] !in cols
  {
    if aliases == [] then None
    else if aliases[0] in cols then Some(0)
    else match FirstPresent(aliases[1..], cols)
      case None => None
      case Some(j) => Some(j + 1)
  }

  /** The column chosen for each field: the first of its aliases present among `cols`. */
  function Mapping(cols: seq<string>): map<Target, string>
  {
    map t | t in {DateField, AmountField, DescriptionField} && FirstPresent(Aliases(t), cols).Some?
      :: Aliases(t)[FirstPresent(Aliases(t), cols).value]
  }

  /**
   * A field is mapped exactly when one of its aliases is a (normalised) header,
   * and then to a header that is the first such alias in preference order.
   */
  lemma MappingPrefersFirstAlias(cols: seq<string>, t: Target)
    ensures t in Mapping(cols) <==> exists j :: 0 <= j < |Aliases(t)| && Aliases(t)[j] in cols
    ensures t in Mapping(cols) ==> Mapping(cols)[t] in cols
    ensures t in Mapping(cols) ==>
      exists k :: (0 <= k < |Aliases(t)| && Mapping(cols)[t] == Aliases(t)[k]
                   && forall j :: 0 <= j < k ==> Aliases(t)[j] !in cols)
  {
    var k := FirstPresent(Aliases(t), cols);
    if k.Some? {
      assert t in Mapping(cols);
    }
  }

  /** The alias at `j` is the first present one when it is present and none before it is. */
  lemma FirstPresentAt(aliases: seq<string>, cols: seq<string>, j: nat)
    requires j < |aliases| && aliases[j] in cols
    requires forall k :: 0 <= k < j ==> aliases[k] !in cols
    ensures FirstPresent(aliases, cols) == Some(j)
  {
  }

  lemma EveryTargetListed(t: Target)
    ensures t in Targets
  {
    match t
    case DateField =>
    case AmountField =>
    case DescriptionField =>
  }

  /** Builds the field-to-column map with the source's nested loop and `break`. */
  method MapColumns(cols: seq<string>) returns (m: map<Target, string>)
    ensures m == Mapping(cols)
  {
    m := map[];
    var i := 0;
    while i < |Targets|
      invariant 0 <= i <= |Targets|
      invariant forall t :: t in m <==> t in Targets[..i] && FirstPresent(Aliases(t), cols).Some?
      invariant forall t :: t in m ==> m[t] == Aliases(t)[FirstPresent(Aliases(t), cols).value]
    {
      var target := Targets[i];
      var names := Aliases(target);
      ghost var before := m;
      var j := 0;
      while j < |names|
        invariant 0 <= j <= |names|
        invariant forall k :: 0 <= k < j ==> names[k] !in cols
        invariant m == before
      {
        if names[j] in cols {
          FirstPresentAt(names, cols, j);
          m := m[target := names[j]];
          break;
        }
        j := j + 1;
      }
      assert Targets[..i + 1] == Targets[..i] + [target];
      i := i + 1;
    }
    forall t ensures t in Targets {
      EveryTargetListed(t);
    }
    assert Targets[..i] == Targets;
    MappingByTargets(cols, m);
  }

  /** A map that picks, for exactly the fields with a present alias, the first such alias is `Mapping`. */
  lemma MappingByTargets(cols: seq<string>, m: map<Target, string>)
    requires forall t :: t in m <==> FirstPresent(Aliases(t), cols).Some?
    requires forall t :: t in m ==> m[t] == Aliases(t)[FirstPresent(Aliases(t), cols).value]
    ensures m == Mapping(cols)
  {
    var full := Mapping(cols);
    forall t | true
      ensures t in full <==> t in m
      ensures t in m ==> full[t] == m[t]
    {
      assert t == DateField || t == AmountField || t == DescriptionField;
    }
    assert m.Keys == full.Keys;
  }

  // ---------------------------------------------------------------------------
  // Structure check
  // ---------------------------------------------------------------------------

  /** The exact names the structure check looks for. */
  const Required: seq<string> := ["date", "amount", "description"]

  /**
   * The structure check: true exactly when the file could be read and at least
   * one of the exact names `date`, `amount`, `description` is a normalised
   * header. `None` stands for a file the reader could not read.
   */
  function ValidateCsv(headers: Option<seq<string>>): (ok: bool)
    ensures headers.None? ==> !ok
    ensures ok <==> (headers.Some? &&
      ("date" in NormalizeAll(headers.value) || "amount" in NormalizeAll(headers.value)
       || "description" in NormalizeAll(headers.value)))
  {
    match headers
    case None => false
    case Some(cols) =>
      var normal := NormalizeAll(cols);
      exists name :: name in Required && name in normal
  }

  /** A file that passes the structure check always maps at least one field. */
  lemma ValidatedHeadersMap(headers: seq<string>)
    requires ValidateCsv(Some(headers))
    ensures Mapping(NormalizeAll(headers)) != map[]
  {
    var cols := NormalizeAll(headers);
    var t := if "date" in cols then DateField else if "amount" in cols then AmountField else DescriptionField;
    FirstPresentAt(Aliases(t), cols, 0);
    assert t in Mapping(cols);
  }

  /** The aliases that are not themselves one of the exact names. */
  const AliasOnly: seq<string> :=
    ["transaction_date", "posted_date", "debit", "transaction_amount", "memo", "payee", "merchant"]

  /**
   * A file whose headers are all secondary aliases is refused by the structure
   * check, although the mapping would find a column for it.
   */
  lemma AliasOnlyHeadersRejected(headers: seq<string>)
    requires headers != []
    requires forall h :: h in headers ==> Normalize(h) in AliasOnly
    ensures !ValidateCsv(Some(headers))
    ensures Mapping(NormalizeAll(headers)) != map[]
  {
    var cols := NormalizeAll(headers);
    forall c | c in cols ensures c in AliasOnly {
      var i :| 0 <= i < |cols| && cols[i] == c;
      assert headers[i] in headers;
    }
    ExactNamesAreNotAliasOnly();
    assert headers[0] in headers;
    var idx :| 0 <= idx < |AliasOnly| && AliasOnly[idx] == cols[0];
    var t := if idx < 2 then DateField else if idx < 4 then AmountField else DescriptionField;
    var k := if idx < 4 then 1 + idx % 2 else idx - 3;
    AliasOnlyPositions(idx);
    assert Aliases(t)[k] in cols;
    MappingPrefersFirstAlias(cols, t);
  }

  lemma ExactNamesAreNotAliasOnly()
    ensures "date" !in AliasOnly && "amount" !in AliasOnly && "description" !in AliasOnly
  {
  }

  /** Where each secondary alias sits in its field's alias list. */
  lemma AliasOnlyPositions(idx: nat)
    requires idx < |AliasOnly|
    ensures idx < 2 ==> Aliases(DateField)[1 + idx % 2] == AliasOnly[idx]
    ensures 2 <= idx < 4 ==> Aliases(AmountField)[1 + idx % 2] == AliasOnly[idx]
    ensures 4 <= idx ==> Aliases(DescriptionField)[idx - 3] == AliasOnly[idx]
  {
  }

  // ---------------------------------------------------------------------------
  // Row processing
  // ---------------------------------------------------------------------------

  /** What a converter made of a cell: a value, or the reason it gave for refusing. */
  datatype Conversion<T> = Converted(value: T) | Unconvertible(reason: string)

  /** One cell: its text (`str(cell)`), what `float(cell)` gives, what the date converter gives. */
  datatype Cell = Cell(text: string, asNumber: Conversion<real>, asDate: Conversion<DateTime>)

  datatype Table = Table(columns: seq<string>, rows: seq<seq<Cell>>)

  /** The reader always yields one cell per header in every row. */
  predicate WellFormed(t: Table)
  {
    forall row :: row in t.rows ==> |row| == |t.columns|
  }

  /** The expense payload the importer produces (`ExpenseCreate`). */
  datatype ExpenseCreate = ExpenseCreate(amount: real, description: string, date: DateTime, categoryId: int)

  /** Every imported or receipt-made expense lands in category 1 until the user moves it. */
  const DefaultCategoryId: int := 1

  datatype CsvError =
    | NoMatchingColumns
    | MissingColumn(target: Target)
    | BadDate(reason: string)
    | BadAmount(reason: string)

  const ErrorPrefix: string := "Error processing CSV file: "

  /**
   * `str(e)` of the exception behind each failure: the `ValueError`'s own
   * text, the failed key quoted as `KeyError` prints it, or the converter's
   * message.
   */
  function Detail(e: CsvError): (d: string)
    ensures e.NoMatchingColumns? ==> d == "No matching columns found in CSV file"
    ensures e.MissingColumn? ==>
      && |d| == |TargetName(e.target)| + 2 && d[0] == '\'' && d[|d| - 1] == '\''
      && d[1..|d| - 1] == TargetName(e.target) && TargetName(e.target) == Aliases(e.target)[0]
    ensures e.BadDate? || e.BadAmount? ==> d == e.reason
  {
    match e
    case NoMatchingColumns => "No matching columns found in CSV file"
    case MissingColumn(t) => "'" + TargetName(t) + "'"
    case BadDate(reason) => reason
    case BadAmount(reason) => reason
  }

  /** Every failure is re-raised with the same prefix in front of the original message. */
  function Message(e: CsvError): (msg: string)
    ensures |msg| > |ErrorPrefix| || e.BadDate? || e.BadAmount?
    ensures |msg| >= |ErrorPrefix| && msg[..|ErrorPrefix|] == ErrorPrefix
    ensures msg[|ErrorPrefix|..] == Detail(e)
  {
    ErrorPrefix + Detail(e)
  }

  function Cols(t: Table): seq<string>
  {
    NormalizeAll(t.columns)
  }

  /** The position of the first occurrence of `name` in `cols`. */
  function IndexOf(cols: seq<string>, name: string): (k: nat)
    requires name in cols
    ensures k < |cols| && cols[k] == name
    ensures forall j :: 0 <= j < k ==> cols[j] != name
  {
    if cols[0] == name then 0 else 1 + IndexOf(cols[1..], name)
  }

  /**
   * A header list `cols` (one per column of `t`) and a field map `m` whose
   * every chosen name is one of those headers.
   */
  predicate Layout(t: Table, cols: seq<string>, m: map<Target, string>)
  {
    && WellFormed(t)
    && |cols| == |t.columns|
    && forall x :: x in m ==> m[x] in cols
  }

  /** The mapping chosen from the normalised headers is such a layout. */
  lemma MappingIsLayout(t: Table)
    requires WellFormed(t)
    ensures Layout(t, Cols(t), Mapping(Cols(t)))
  {
    forall x | x in Mapping(Cols(t)) ensures Mapping(Cols(t))[x] in Cols(t) {
      MappingPrefersFirstAlias(Cols(t), x);
    }
  }

  /** The cell of row `i` in the column mapped to `target` (the first header of that name). */
  function CellAt(t: Table, cols: seq<string>, m: map<Target, string>, i: nat, target: Target): Cell
    requires Layout(t, cols, m) && i < |t.rows| && target in m
  {
    assert t.rows[i] in t.rows;
    t.rows[i][IndexOf(cols, m[target])]
  }

  /** The whole date column converts (the conversion is applied to the column at once). */
  predicate DatesConvert(t: Table, cols: seq<string>, m: map<Target, string>)
    requires Layout(t, cols, m) && DateField in m
  {
    forall i :: 0 <= i < |t.rows| ==> CellAt(t, cols, m, i, DateField).asDate.Converted?
  }

  /** Row `i` can be turned into an expense. */
  predicate RowConvertible(t: Table, cols: seq<string>, m: map<Target, string>, i: nat)
    requires Layout(t, cols, m) && i < |t.rows|
  {
    && DateField in m && AmountField in m && DescriptionField in m
    && CellAt(t, cols, m, i, DateField).asDate.Converted?
    && CellAt(t, cols, m, i, AmountField).asNumber.Converted?
  }

  /** Row `j` is the first row that cannot be turned into an expense. */
  predicate FirstBadRow(t: Table, cols: seq<string>, m: map<Target, string>, j: nat)
    requires Layout(t, cols, m)
  {
    && j < |t.rows|
    && !RowConvertible(t, cols, m, j)
    && forall k :: 0 <= k < j ==> RowConvertible(t, cols, m, k)
  }

  /** There is only one first row that cannot be converted. */
  lemma FirstBadRowUnique(t: Table, cols: seq<string>, m: map<Target, string>, i: nat, j: nat)
    requires Layout(t, cols, m)
    requires FirstBadRow(t, cols, m, i) && FirstBadRow(t, cols, m, j)
    ensures i == j
  {
  }

  predicate ConvertibleWith(t: Table, cols: seq<string>, m: map<Target, string>)
    requires Layout(t, cols, m)
  {
    && DateField in m
    && DatesConvert(t, cols, m)
    && forall i :: 0 <= i < |t.rows| ==> RowConvertible(t, cols, m, i)
  }

  /** The whole file can be turned into expenses. */
  predicate Convertible(t: Table)
    requires WellFormed(t)
  {
    MappingIsLayout(t);
    ConvertibleWith(t, Cols(t), Mapping(Cols(t)))
  }

  function Abs(x: real): (r: real)
    ensures r >= 0.0 && (r == x || r == -x)
  {
    if x < 0.0 then -x else x
  }

  /**
   * The expense made from row `i`: the amount's absolute value (so debits
   * written as negative numbers become positive amounts), the description
   * cell's text, the converted date, and the default category.
   */
  function RowExpense(t: Table, cols: seq<string>, m: map<Target, string>, i: nat): (e: ExpenseCreate)
    requires Layout(t, cols, m) && i < |t.rows| && RowConvertible(t, cols, m, i)
    ensures e.amount >= 0.0 && e.categoryId == DefaultCategoryId
    ensures var x := CellAt(t, cols, m, i, AmountField).asNumber.value; e.amount == x || e.amount == -x
    ensures e.description == CellAt(t, cols, m, i, DescriptionField).text
    ensures e.date == CellAt(t, cols, m, i, DateField).asDate.value
  {
    ExpenseCreate(
      Abs(CellAt(t, cols, m, i, AmountField).asNumber.value),
      CellAt(t, cols, m, i, DescriptionField).text,
      CellAt(t, cols, m, i, DateField).asDate.value,
      DefaultCategoryId)
  }

  /** The row expense under the mapping the headers of `t` give. */
  function FileRowExpense(t: Table, i: nat): ExpenseCreate
    requires WellFormed(t) && Convertible(t) && i < |t.rows|
  {
    MappingIsLayout(t);
    RowExpense(t, Cols(t), Mapping(Cols(t)), i)
  }

  /** The expenses a convertible file yields: one per row, in row order. */
  function FileExpenses(t: Table): seq<ExpenseCreate>
    requires WellFormed(t) && Convertible(t)
  {
    seq(|t.rows|, i requires 0 <= i < |t.rows| => FileRowExpense(t, i))
  }

  /** The date converter applied to a whole column: it fails on the first cell it cannot read. */
  function ToDates(cells: seq<Cell>): (r: Result<seq<DateTime>, string>)
    ensures r.Success? <==> forall i :: 0 <= i < |cells| ==> cells[i].asDate.Converted?
    ensures r.Success? ==> |r.value| == |cells| && forall i :: 0 <= i < |cells| ==> r.value[i] == cells[i].asDate.value
  {
    if cells == [] then Success([])
    else match cells[0].asDate
      case Unconvertible(reason) => Failure(reason)
      case Converted(d) =>
        match ToDates(cells[1..])
        case Failure(reason) => Failure(reason)
        case Success(rest) => Success([d] + rest)
  }

  /**
   * `process_csv`: one expense per row, in row order, or the first failure in
   * the order the source meets them: no mapped field at all, no date column, an
   * unreadable date anywhere in the column, then row by row a missing amount
   * column, an unreadable amount, a missing description column.
   */
  method ProcessCsv(t: Table) returns (r: Result<seq<ExpenseCreate>, CsvError>)
    requires WellFormed(t)
    ensures r.Success? <==> Convertible(t)
    ensures r.Success? ==> r.value == FileExpenses(t)
    ensures Mapping(Cols(t)) == map[] ==> r == Failure(NoMatchingColumns)
    ensures Mapping(Cols(t)) != map[] && DateField !in Mapping(Cols(t)) ==> r == Failure(MissingColumn(DateField))
    ensures DateField in Mapping(Cols(t)) && (MappingIsLayout(t); !DatesConvert(t, Cols(t), Mapping(Cols(t))))
      ==> r.Failure? && r.error.BadDate?
    ensures DateField in Mapping(Cols(t)) && (MappingIsLayout(t); DatesConvert(t, Cols(t), Mapping(Cols(t))))
      && |t.rows| > 0 && AmountField !in Mapping(Cols(t))
      ==> r == Failure(MissingColumn(AmountField))
    ensures (MappingIsLayout(t); var cols, m := Cols(t), Mapping(Cols(t));
      DateField in m && DatesConvert(t, cols, m) ==>
      forall j :: (0 <= j < |t.rows| && FirstBadRow(t, cols, m, j) && AmountField in m
        && CellAt(t, cols, m, j, AmountField).asNumber.Unconvertible?
        ==> r == Failure(BadAmount(CellAt(t, cols, m, j, AmountField).asNumber.reason))))
    ensures (MappingIsLayout(t); var cols, m := Cols(t), Mapping(Cols(t));
      DateField in m && DatesConvert(t, cols, m) ==>
      forall j :: (0 <= j < |t.rows| && FirstBadRow(t, cols, m, j) && AmountField in m
        && CellAt(t, cols, m, j, AmountField).asNumber.Converted?
        ==> DescriptionField !in m && r == Failure(MissingColumn(DescriptionField))))
  {
    var cols := NormalizeAll(t.columns);
    var m := MapColumns(cols);
    MappingIsLayout(t);
    assert cols == Cols(t);
    r := ProcessWith(t, cols, m);
    if r.Success? {
      RowExpensesAreFileExpenses(t, cols, m, r.value);
    }
  }

  /** The expenses built row by row under the file's own mapping are `FileExpenses`. */
  lemma RowExpensesAreFileExpenses(t: Table, cols: seq<string>, m: map<Target, string>, xs: seq<ExpenseCreate>)
    requires Layout(t, cols, m) && cols == Cols(t) && m == Mapping(cols) && ConvertibleWith(t, cols, m)
    requires |xs| == |t.rows|
    requires forall i :: 0 <= i < |t.rows| ==> RowConvertible(t, cols, m, i) && xs[i] == RowExpense(t, cols, m, i)
    ensures Convertible(t) && xs == FileExpenses(t)
  {
    var fe := FileExpenses(t);
    assert |fe| == |xs|;
    forall i | 0 <= i < |t.rows| ensures xs[i] == fe[i] {
      calc {
        fe[i];
        FileRowExpense(t, i);
        RowExpense(t, cols, m, i);
      }
    }
  }

  /** `process_csv` once the headers are normalised into `cols` and mapped by `m`. */
  method ProcessWith(t: Table, cols: seq<string>, m: map<Target, string>) returns (r: Result<seq<ExpenseCreate>, CsvError>)
    requires Layout(t, cols, m)
    ensures r.Success? <==> ConvertibleWith(t, cols, m)
    ensures r.Success? ==> |r.value| == |t.rows|
    ensures r.Success? ==> forall i :: 0 <= i < |t.rows| ==>
      RowConvertible(t, cols, m, i) && r.value[i] == RowExpense(t, cols, m, i)
    ensures m == map[] ==> r == Failure(NoMatchingColumns)
    ensures m != map[] && DateField !in m ==> r == Failure(MissingColumn(DateField))
    ensures DateField in m && !DatesConvert(t, cols, m) ==> r.Failure? && r.error.BadDate?
    ensures DateField in m && DatesConvert(t, cols, m) && |t.rows| > 0 && AmountField !in m
      ==> r == Failure(MissingColumn(AmountField))
    ensures DateField in m && DatesConvert(t, cols, m) ==>
      forall j :: (0 <= j < |t.rows| && FirstBadRow(t, cols, m, j) && AmountField in m
        && CellAt(t, cols, m, j, AmountField).asNumber.Unconvertible?
        ==> r == Failure(BadAmount(CellAt(t, cols, m, j, AmountField).asNumber.reason)))
    ensures DateField in m && DatesConvert(t, cols, m) ==>
      forall j :: (0 <= j < |t.rows| && FirstBadRow(t, cols, m, j) && AmountField in m
        && CellAt(t, cols, m, j, AmountField).asNumber.Converted?
        ==> DescriptionField !in m && r == Failure(MissingColumn(DescriptionField)))
  {
    if m == map[] {
      return Failure(NoMatchingColumns);
    }
    if DateField !in m {
      return Failure(MissingColumn(DateField));
    }
    var dateCells := seq(|t.rows|, i requires 0 <= i < |t.rows| => CellAt(t, cols, m, i, DateField));
    var dates := ToDates(dateCells);
    assert forall i :: 0 <= i < |t.rows| ==> dateCells[i] == CellAt(t, cols, m, i, DateField);
    if dates.Failure? {
      return Failure(BadDate(dates.error));
    }
    assert DatesConvert(t, cols, m);
    r := BuildExpenses(t, cols, m, dates.value);
  }

  /** The row loop of `process_csv`, once the date column has been converted. */
  method BuildExpenses(t: Table, cols: seq<string>, m: map<Target, string>, dates: seq<DateTime>)
    returns (r: Result<seq<ExpenseCreate>, CsvError>)
    requires Layout(t, cols, m) && DateField in m && DatesConvert(t, cols, m)
    requires |dates| == |t.rows|
    requires forall i :: 0 <= i < |t.rows| ==> dates[i] == CellAt(t, cols, m, i, DateField).asDate.value
    ensures r.Success? <==> forall i :: 0 <= i < |t.rows| ==> RowConvertible(t, cols, m, i)
    ensures r.Success? ==> |r.value| == |t.rows|
    ensures r.Success? ==> forall i :: 0 <= i < |t.rows| ==>
      RowConvertible(t, cols, m, i) && r.value[i] == RowExpense(t, cols, m, i)
    ensures |t.rows| > 0 && AmountField !in m ==> r == Failure(MissingColumn(AmountField))
    ensures forall j :: (0 <= j < |t.rows| && FirstBadRow(t, cols, m, j) && AmountField in m
      && CellAt(t, cols, m, j, AmountField).asNumber.Unconvertible?
      ==> r == Failure(BadAmount(CellAt(t, cols, m, j, AmountField).asNumber.reason)))
    ensures forall j :: (0 <= j < |t.rows| && FirstBadRow(t, cols, m, j) && AmountField in m
      && CellAt(t, cols, m, j, AmountField).asNumber.Converted?
      ==> DescriptionField !in m && r == Failure(MissingColumn(DescriptionField)))
  {
    var expenses: seq<ExpenseCreate> := [];
    var i := 0;
    while i < |t.rows|
      invariant 0 <= i <= |t.rows|
      invariant |expenses| == i
      invariant forall k :: 0 <= k < i ==> RowConvertible(t, cols, m, k)
      invariant forall k :: 0 <= k < i ==> expenses[k] == RowExpense(t, cols, m, k)
      invariant i > 0 ==> AmountField in m
    {
      if AmountField !in m {
        assert !RowConvertible(t, cols, m, i);
        return Failure(MissingColumn(AmountField));
      }
      var amountCell := CellAt(t, cols, m, i, AmountField);
      if amountCell.asNumber.Unconvertible? {
        assert FirstBadRow(t, cols, m, i);
        forall j | 0 <= j < |t.rows| && FirstBadRow(t, cols, m, j) ensures j == i {
          FirstBadRowUnique(t, cols, m, i, j);
        }
        return Failure(BadAmount(amountCell.asNumber.reason));
      }
      var amount := Abs(amountCell.asNumber.value);
      if DescriptionField !in m {
        assert FirstBadRow(t, cols, m, i);
        forall j | 0 <= j < |t.rows| && FirstBadRow(t, cols, m, j) ensures j == i {
          FirstBadRowUnique(t, cols, m, i, j);
        }
        return Failure(MissingColumn(DescriptionField));
      }
      var description := CellAt(t, cols, m, i, DescriptionField).text;
      expenses := expenses + [ExpenseCreate(amount, description, dates[i], DefaultCategoryId)];
      i := i + 1;
    }
    return Success(expenses);
  }
}
