/** The portfolio DAOs: TaskCsvDAO's nine-column rows and TaskTestDAO's fixture.

    A CSV file is modelled as the sequence of rows `csv.DictReader` yields, each a map from
    column name to text; the files themselves are a map from path to rows in a Storage
    object. Quoting, encodings and I/O failures other than a missing file are outside the
    model. */
module TaskDao {
  import opened Outcomes
  import opened PyText
  import opened Calendar
  import opened Tasks

  /** The columns of TaskCsvDAO.fieldnames, in order; a row read back is keyed by them. */
  datatype Column =
    | TitleCol | TypeCol | DateDueCol | CompletedCol | IntervalCol | CompletedDatesCol | DateCreatedCol
    | DescriptionCol | PriorityLevelCol

  /** The header text of each column. */
  function ColumnName(c: Column): string {
    match c
    case TitleCol => "title"
    case TypeCol => "type"
    case DateDueCol => "date_due"
    case CompletedCol => "completed"
    case IntervalCol => "interval"
    case CompletedDatesCol => "completed_dates"
    case DateCreatedCol => "date_created"
    case DescriptionCol => "description"
    case PriorityLevelCol => "priority_level"
  }

  /** TaskCsvDAO.fieldnames, the header the writer puts first. */
  const FieldNames: seq<string> :=
    ["title", "type", "date_due", "completed", "interval", "completed_dates", "date_created",
     "description", "priority_level"]

  /** Keying a row by column is keying it by header name: each column has its own name, and
      the header names exactly the columns. */
  lemma HeaderColumns()
    ensures forall a: Column, b: Column :: ColumnName(a) == ColumnName(b) ==> a == b
    ensures forall c: Column :: ColumnName(c) in FieldNames
    ensures forall i :: 0 <= i < |FieldNames| ==> exists c: Column :: ColumnName(c) == FieldNames[i]
  {
    assert ColumnName(DateDueCol)[0] != ColumnName(IntervalCol)[0];
    assert forall i :: 0 <= i < |FieldNames| ==> ColumnName(ColumnAt(i)) == FieldNames[i];
  }

  /** The column in each place of the header. */
  function ColumnAt(i: nat): Column
    requires i < 9
  {
    [TitleCol, TypeCol, DateDueCol, CompletedCol, IntervalCol, CompletedDatesCol, DateCreatedCol,
     DescriptionCol, PriorityLevelCol][i]
  }

  const AllColumns: set<Column> :=
    {TitleCol, TypeCol, DateDueCol, CompletedCol, IntervalCol, CompletedDatesCol, DateCreatedCol,
     DescriptionCol, PriorityLevelCol}

  /** Every column is in the header. */
  lemma ColumnsComplete()
    ensures forall c: Column :: c in AllColumns
  {
    forall c: Column ensures c in AllColumns {
      if c.TitleCol? || c.TypeCol? || c.DateDueCol? || c.CompletedCol? || c.IntervalCol? {
      } else {
        assert c.CompletedDatesCol? || c.DateCreatedCol? || c.DescriptionCol? || c.PriorityLevelCol?;
      }
    }
  }

  /** A CSV row as `csv.DictReader` gives it, by column; a column the file lacks is absent. */
  type Row = map<Column, string>

  /** `str(b)` for a bool. */
  function BoolText(b: bool): string {
    if b then "True" else "False"
  }

  /** `','.join(d.strftime("%Y-%m-%d") for d in ds)`. */
  function JoinDates(ds: seq<Instant>): string {
    Join(FormatDates(ds), ',')
  }

  function FormatDates(ds: seq<Instant>): (ss: seq<string>)
    ensures |ss| == |ds| && forall i :: 0 <= i < |ds| ==> ss[i] == FormatDate(ds[i])
  {
    if ds == [] then [] else [FormatDate(ds[0])] + FormatDates(ds[1..])
  }

  /** The text `save_all_tasks` writes in one column for a task: the priority level only
      for a priority task, the interval's whole days and the completed dates only for a
      recurring one, and empty text otherwise. */
  function Cell(v: TaskValue, c: Column): string {
    match c
    case TitleCol => v.title
    case TypeCol => TaskType(v.variant)
    case DateDueCol => FormatDate(v.dateDue)
    case CompletedCol => BoolText(v.completed)
    case DateCreatedCol => FormatDate(v.dateCreated)
    case DescriptionCol => v.description
    case PriorityLevelCol => if v.variant.Priority? then IntToString(v.variant.level) else ""
    case IntervalCol => if v.variant.Recurring? then IntToString(Days(v.variant.interval)) else ""
    case CompletedDatesCol => if v.variant.Recurring? then JoinDates(v.variant.completedDates) else ""
  }

  /** The row `save_all_tasks` writes for one task: every column filled. */
  function EncodeRow(v: TaskValue): (row: Row)
    ensures forall c: Column :: c in row && row[c] == Cell(v, c)
  {
    ColumnsComplete();
    map c | c in AllColumns :: Cell(v, c)
  }

  /** What reading one row gives: a task, a row skipped after a ValueError or KeyError, or
      an exception the row loop does not catch, which ends the whole load. */
  datatype Parsed<T> = Good(value: T) | Skip | Abort

  /** The recurring interval column: `int(s.split()[0])` days, or 7 days when the column is
      empty. Text of only whitespace makes `split()[0]` raise IndexError, and a day count
      `timedelta` refuses raises OverflowError; neither is caught by the row loop. */
  function IntervalOf(s: string): (r: Parsed<Duration>)
    ensures s == "" ==> r == Good(7 * SecondsPerDay)
    ensures r.Abort? <==> s != "" && (AllSpace(s) || (ParseInt(FirstToken(s).value).Some?
                                                     && FromDays(ParseInt(FirstToken(s).value).value).None?))
    ensures r.Skip? <==> s != "" && !AllSpace(s) && ParseInt(FirstToken(s).value).None?
  {
    if s == "" then Good(7 * SecondsPerDay)
    else match FirstToken(s)
      case None => Abort
      case Some(token) =>
        match ParseInt(token)
        case None => Skip
        case Some(n) =>
          match FromDays(n)
          case None => Abort
          case Some(d) => Good(d)
  }

  /** An interval of more digits than `int()` accepts skips the row, rather than ending the
      load as a day count too large for `timedelta` does. */
  lemma OverlongIntervalSkips(s: string)
    requires AllDigits(s) && |s| > MaxStrDigits
    ensures IntervalOf(s) == Skip
  {
    FirstTokenOfWord(s);
    ParseIntTooLong(s);
  }

  /** The completed-dates column: pieces between commas, blank pieces ignored, each other
      piece stripped and parsed; one bad piece is a ValueError. */
  function DatesOf(pieces: seq<string>): (r: Parsed<seq<Instant>>)
    ensures !r.Abort?
  {
    if pieces == [] then Good([])
    else
      var p := Strip(pieces[0]);
      var rest := DatesOf(pieces[1..]);
      if p == [] then rest
      else match ParseDate(p)
        case None => Skip
        case Some(t) => if rest.Good? then Good([t] + rest.value) else rest
  }

  /** What the row loop of `get_all_tasks` makes of one row. */
  function DecodeRow(row: Row): Parsed<TaskValue>
  {
    if !(TypeCol in row && TitleCol in row && DateDueCol in row && CompletedCol in row && DateCreatedCol in row) then
      Skip
    else
      var description := if DescriptionCol in row then row[DescriptionCol] else "";
      var due, created := ParseDate(row[DateDueCol]), ParseDate(row[DateCreatedCol]);
      if due.None? || created.None? then Skip
      else
        var completed := Lower(row[CompletedCol]) == "true";
        var title := row[TitleCol];
        if row[TypeCol] == "PriorityTask" then
          if PriorityLevelCol !in row then Skip
          else match ParseInt(row[PriorityLevelCol])
            case None => Skip
            case Some(n) =>
              match InitPriorityTask(title, due.value, n, description, created.value)
              case Err(_) => Skip
              case Ok(v) => Good(v.(completed := completed))
        else if row[TypeCol] == "RecurringTask" then
          if IntervalCol !in row || CompletedDatesCol !in row then Skip
          else match IntervalOf(row[IntervalCol])
            case Skip => Skip
            case Abort => Abort
            case Good(interval) =>
              var v := InitRecurringTask(title, due.value, interval, description, created.value);
              var datesText := row[CompletedDatesCol];
              var dates := if datesText == "" then Good([]) else DatesOf(SplitOn(datesText, ','));
              if dates.Good? then Good(v.(completed := completed, variant := Recurring(interval, dates.value)))
              else Skip
        else
          Good(InitTask(title, due.value, description, created.value).(completed := completed))
  }

  /** A row that loads has the columns every task needs, and the task read from it has the
      row's title and description, its dates, its completion flag and, for the two special type
      names, their class; an uncaught error comes only from a recurring task's row. */
  lemma DecodeRowFields(row: Row)
    ensures var r := DecodeRow(row);
      r.Good? ==> TypeCol in row && TitleCol in row && DateDueCol in row && CompletedCol in row && DateCreatedCol in row
    ensures var r := DecodeRow(row);
      r.Good? ==> && r.value.title == row[TitleCol]
                  && r.value.completed == (Lower(row[CompletedCol]) == "true")
                  && Some(r.value.dateDue) == ParseDate(row[DateDueCol])
                  && Some(r.value.dateCreated) == ParseDate(row[DateCreatedCol])
                  && r.value.description == (if DescriptionCol in row then row[DescriptionCol] else "")
    ensures var r := DecodeRow(row);
      r.Good? ==> TaskType(r.value.variant) == (if row[TypeCol] in ["PriorityTask", "RecurringTask"] then row[TypeCol] else "Task")
    ensures var r := DecodeRow(row);
      r.Abort? ==> TypeCol in row && row[TypeCol] == "RecurringTask"
  {
  }

  /** A priority level of more digits than `int()` accepts skips the row, even when leading
      zeros make its value a valid level. */
  lemma OverlongLevelSkips(row: Row)
    requires TypeCol in row && TitleCol in row && DateDueCol in row && CompletedCol in row && DateCreatedCol in row
    requires row[TypeCol] == "PriorityTask" && PriorityLevelCol in row
    requires AllDigits(row[PriorityLevelCol]) && |row[PriorityLevelCol]| > MaxStrDigits
    ensures DecodeRow(row) == Skip
  {
    ParseIntTooLong(row[PriorityLevelCol]);
  }

  /** The tasks `get_all_tasks` returns for the rows of an existing file, in row order. */
  function LoadValues(rows: seq<Row>): seq<TaskValue> {
    if rows == [] then []
    else match DecodeRow(rows[0])
      case Good(v) => [v] + LoadValues(rows[1..])
      case Skip => LoadValues(rows[1..])
      case Abort => []
  }

  /** What a save and a load lose: the time of day of every date and the part of the
      interval below a whole day. */
  function Truncate(v: TaskValue): (w: TaskValue)
    ensures w.title == v.title && w.completed == v.completed && w.description == v.description
    ensures TaskType(w.variant) == TaskType(v.variant)
  {
    v.(dateDue := StartOfDay(v.dateDue), dateCreated := StartOfDay(v.dateCreated),
       variant := match v.variant
                  case Recurring(iv, ds) => Recurring(Days(iv) * SecondsPerDay, StartOfDays(ds))
                  case other => other)
  }

  function StartOfDays(ds: seq<Instant>): (ms: seq<Instant>)
    ensures |ms| == |ds| && forall i :: 0 <= i < |ds| ==> ms[i] == StartOfDay(ds[i])
  {
    if ds == [] then [] else [StartOfDay(ds[0])] + StartOfDays(ds[1..])
  }

  /** Truncating is idempotent: after one save and load, further round trips are exact. */
  lemma TruncateIdempotent(v: TaskValue)
    ensures Truncate(Truncate(v)) == Truncate(v)
  {
    if v.variant.Recurring? {
      var ds := StartOfDays(v.variant.completedDates);
      assert StartOfDays(ds) == ds;
    }
  }

  /** Every written date parses back to its midnight. */
  lemma DatesRoundTrip(ds: seq<Instant>)
    ensures (if ds == [] then Good([]) else DatesOf(SplitOn(JoinDates(ds), ','))) == Good(StartOfDays(ds))
  {
    if ds != [] {
      var texts := FormatDates(ds);
      forall i | 0 <= i < |texts| ensures ',' !in texts[i] {
        assert forall k :: 0 <= k < |texts[i]| ==> texts[i][k] != ',';
      }
      SplitJoin(texts, ',');
      ParsedTexts(ds);
    }
  }

  /** Parsing the written texts of some dates gives their midnights. */
  lemma {:induction false} ParsedTexts(ds: seq<Instant>)
    ensures DatesOf(FormatDates(ds)) == Good(StartOfDays(ds))
  {
    if ds != [] {
      var s := FormatDate(ds[0]);
      assert Trimmed(s);
      StripTrimmed(s);
      ParseFormatDate(ds[0]);
      ParsedTexts(ds[1..]);
      assert FormatDates(ds)[1..] == FormatDates(ds[1..]);
    }
  }

  /** The interval column gives back the interval's whole days. */
  lemma IntervalRoundTrip(iv: Duration)
    ensures IntervalOf(IntToString(Days(iv))) == Good(Days(iv) * SecondsPerDay)
  {
    var s := IntToString(Days(iv));
    FirstTokenOfWord(s);
    ShortNumber(Days(iv));
    ParseIntToString(Days(iv));
  }

  /** A day count or a priority level prints in at most nine digits, well inside the limit
      on decimal text. */
  lemma ShortNumber(n: int)
    requires -MaxDays <= n <= MaxDays
    ensures |NatToString(Magnitude(n))| <= 9 <= MaxStrDigits
  {
    assert Pow10(9) == 1000000000 by {
      assert Pow10(3) == 1000;
      assert Pow10(6) == 1000 * Pow10(3) by {
        assert Pow10(6) == 10 * (10 * (10 * Pow10(3)));
      }
      assert Pow10(9) == 10 * (10 * (10 * Pow10(6)));
    }
    NatToStringLength(Magnitude(n), 9);
  }

  /** The columns every task writes read back as its type, title and description, its dates
      at midnight and its completion flag. */
  predicate CommonColumns(row: Row, v: TaskValue) {
    && (forall c: Column :: c in row)
    && row[TypeCol] == TaskType(v.variant) && row[TitleCol] == v.title
    && row[DescriptionCol] == v.description
    && ParseDate(row[DateDueCol]) == Some(StartOfDay(v.dateDue))
    && ParseDate(row[DateCreatedCol]) == Some(StartOfDay(v.dateCreated))
    && (Lower(row[CompletedCol]) == "true" <==> v.completed)
  }

  /** Reading a row whose columns read back as a plain task's parts gives that task. */
  lemma DecodeRegular(row: Row, v: TaskValue)
    requires v.variant.Regular? && CommonColumns(row, v)
    ensures DecodeRow(row) == Good(Truncate(v))
  {
  }

  /** The same for a priority task whose level column parses back. */
  lemma DecodePriority(row: Row, v: TaskValue)
    requires v.variant.Priority? && CommonColumns(row, v)
    requires ParseInt(row[PriorityLevelCol]) == Some(v.variant.level)
    ensures DecodeRow(row) == Good(Truncate(v))
  {
    var level := v.variant.level;
    PriorityMappingShape();
    var init := InitPriorityTask(row[TitleCol], StartOfDay(v.dateDue), level, row[DescriptionCol], StartOfDay(v.dateCreated));
    assert init == Ok(Truncate(v).(completed := false));
    PriorityRow(row, StartOfDay(v.dateDue), StartOfDay(v.dateCreated), level);
  }

  /** Which branch of the reader a priority row with good dates and level takes. */
  lemma PriorityRow(row: Row, due: Instant, created: Instant, level: int)
    requires forall c: Column :: c in row
    requires row[TypeCol] == "PriorityTask"
    requires ParseDate(row[DateDueCol]) == Some(due) && ParseDate(row[DateCreatedCol]) == Some(created)
    requires ParseInt(row[PriorityLevelCol]) == Some(level)
    ensures DecodeRow(row) == match InitPriorityTask(row[TitleCol], due, level, row[DescriptionCol], created)
                              case Err(_) => Skip
                              case Ok(v) => Good(v.(completed := Lower(row[CompletedCol]) == "true"))
  {
    assert PriorityLevelCol in row && DescriptionCol in row;
  }

  /** The same for a recurring task whose interval and completed dates parse back. */
  lemma DecodeRecurring(row: Row, v: TaskValue)
    requires v.variant.Recurring? && CommonColumns(row, v)
    requires IntervalOf(row[IntervalCol]) == Good(Days(v.variant.interval) * SecondsPerDay)
    requires (if row[CompletedDatesCol] == "" then Good([]) else DatesOf(SplitOn(row[CompletedDatesCol], ',')))
             == Good(StartOfDays(v.variant.completedDates))
    ensures DecodeRow(row) == Good(Truncate(v))
  {
  }

  /** What `save_all_tasks` writes in each column, spelled out. */
  lemma CellTexts(v: TaskValue)
    ensures Cell(v, TypeCol) == TaskType(v.variant) && Cell(v, TitleCol) == v.title
    ensures Cell(v, DescriptionCol) == v.description && Cell(v, CompletedCol) == BoolText(v.completed)
  {
  }

  lemma CellDue(v: TaskValue)
    ensures Cell(v, DateDueCol) == FormatDate(v.dateDue)
  {
  }

  lemma CellCreated(v: TaskValue)
    ensures Cell(v, DateCreatedCol) == FormatDate(v.dateCreated)
  {
  }

  lemma CellVariant(v: TaskValue)
    ensures v.variant.Priority? ==> Cell(v, PriorityLevelCol) == IntToString(v.variant.level)
    ensures v.variant.Recurring? ==> Cell(v, IntervalCol) == IntToString(Days(v.variant.interval))
    ensures v.variant.Recurring? ==> Cell(v, CompletedDatesCol) == JoinDates(v.variant.completedDates)
  {
  }

  lemma CompletedCell(v: TaskValue)
    ensures Lower(BoolText(v.completed)) == "true" <==> v.completed
  {
    assert Lower("True") == "true";
    assert Lower("False") != "true" by { assert Lower("False")[0] == 'f'; }
  }

  /** A written row has the columns every task writes. */
  lemma WrittenCommon(v: TaskValue)
    ensures CommonColumns(EncodeRow(v), v)
  {
    CellTexts(v);
    CellDue(v);
    CellCreated(v);
    CompletedCell(v);
    ParseFormatDate(v.dateDue);
    ParseFormatDate(v.dateCreated);
  }

  lemma RecurringCells(v: TaskValue)
    requires v.variant.Recurring?
    ensures IntervalOf(IntToString(Days(v.variant.interval))) == Good(Days(v.variant.interval) * SecondsPerDay)
    ensures (if JoinDates(v.variant.completedDates) == "" then Good([])
             else DatesOf(SplitOn(JoinDates(v.variant.completedDates), ',')))
            == Good(StartOfDays(v.variant.completedDates))
  {
    var ds := v.variant.completedDates;
    IntervalRoundTrip(v.variant.interval);
    DatesRoundTrip(ds);
    if ds != [] {
      assert JoinDates(ds) != "" by {
        assert FormatDates(ds) != [] && |FormatDates(ds)[0]| == 10;
        JoinLength(FormatDates(ds), ',');
      }
    }
  }

  /** Reading a written row gives the task back, truncated to whole days. */
  lemma RowRoundTrip(v: TaskValue)
    ensures DecodeRow(EncodeRow(v)) == Good(Truncate(v))
  {
    var row := EncodeRow(v);
    WrittenCommon(v);
    CellVariant(v);
    match v.variant {
      case Regular =>
        DecodeRegular(row, v);
      case Priority(level) =>
        ShortNumber(level);
        ParseIntToString(level);
        DecodePriority(row, v);
      case Recurring(_, _) =>
        RecurringCells(v);
        DecodeRecurring(row, v);
    }
  }

  /** A join is at least as long as its first piece. */
  lemma JoinLength(parts: seq<string>, sep: char)
    requires parts != []
    ensures |Join(parts, sep)| >= |parts[0]|
  {
  }

  /** The rows `save_all_tasks` writes for some tasks. */
  function EncodeRows(vs: seq<TaskValue>): (rows: seq<Row>)
    ensures |rows| == |vs| && forall i :: 0 <= i < |vs| ==> rows[i] == EncodeRow(vs[i])
  {
    if vs == [] then [] else [EncodeRow(vs[0])] + EncodeRows(vs[1..])
  }

  function TruncateAll(vs: seq<TaskValue>): (ws: seq<TaskValue>)
    ensures |ws| == |vs| && forall i :: 0 <= i < |vs| ==> ws[i] == Truncate(vs[i])
  {
    if vs == [] then [] else [Truncate(vs[0])] + TruncateAll(vs[1..])
  }

  /** Saving some tasks and loading them back gives every task, in order, truncated. */
  lemma {:induction false} SaveLoadRoundTrip(vs: seq<TaskValue>)
    ensures LoadValues(EncodeRows(vs)) == TruncateAll(vs)
  {
    if vs != [] {
      RowRoundTrip(vs[0]);
      SaveLoadRoundTrip(vs[1..]);
      assert EncodeRows(vs)[1..] == EncodeRows(vs[1..]);
      assert TruncateAll(vs) == [Truncate(vs[0])] + TruncateAll(vs[1..]);
    }
  }

  /** Rows before an aborting row load as they would alone; a skipped row contributes
      nothing and later rows still load; an aborting row ends the load. */
  lemma {:induction false} LoadAppend(a: seq<Row>, b: seq<Row>)
    requires forall i :: 0 <= i < |a| ==> !DecodeRow(a[i]).Abort?
    ensures LoadValues(a + b) == LoadValues(a) + LoadValues(b)
  {
    if a == [] {
      assert a + b == b;
    } else {
      assert (a + b)[0] == a[0] && (a + b)[1..] == a[1..] + b;
      LoadAppend(a[1..], b);
    }
  }

  lemma SkippedRow(a: seq<Row>, bad: Row, b: seq<Row>)
    requires forall i :: 0 <= i < |a| ==> !DecodeRow(a[i]).Abort?
    requires DecodeRow(bad).Skip?
    ensures LoadValues(a + [bad] + b) == LoadValues(a) + LoadValues(b)
  {
    LoadAppend(a, [bad] + b);
    assert a + [bad] + b == a + ([bad] + b);
    assert ([bad] + b)[1..] == b;
  }

  lemma AbortingRow(a: seq<Row>, bad: Row, b: seq<Row>)
    requires forall i :: 0 <= i < |a| ==> !DecodeRow(a[i]).Abort?
    requires DecodeRow(bad).Abort?
    ensures LoadValues(a + [bad] + b) == LoadValues(a)
  {
    LoadAppend(a, [bad] + b);
    assert a + [bad] + b == a + ([bad] + b);
  }

  /** The files on disk: the rows of each existing path. */
  class Storage {
    var files: map<string, seq<Row>>

    constructor (files: map<string, seq<Row>>)
      ensures this.files == files
    {
      this.files := files;
    }
  }

  /** A DAO: the CSV one on a path, or the fixture one. */
  datatype Dao = TestDao(storagePath: string) | CsvDao(storagePath: string)

  /** TaskCsvDAO.get_all_tasks: a missing file is an empty list; otherwise each row becomes
      a new task object, bad rows are skipped and an uncaught error stops at the tasks so
      far. */
  method CsvGetAllTasks(path: string, storage: Storage) returns (tasks: seq<Task>)
    ensures path !in storage.files ==> tasks == []
    ensures path in storage.files ==> Values(tasks) == LoadValues(storage.files[path])
    ensures forall i :: 0 <= i < |tasks| ==> fresh(tasks[i])
  {
    tasks := [];
    if path !in storage.files {
      return;
    }
    var rows := storage.files[path];
    var i := 0;
    while i < |rows|
      invariant 0 <= i <= |rows|
      invariant Values(tasks) + LoadValues(rows[i..]) == LoadValues(rows)
      invariant forall j :: 0 <= j < |tasks| ==> fresh(tasks[j])
    {
      var d := DecodeRow(rows[i]);
      if d.Abort? {
        LoadStep(rows, i);
        return;
      }
      if d.Good? {
        var task := new Task(d.value);
        ValuesAppend(tasks, task);
        LoadGood(rows, i, Values(tasks), d.value);
        tasks := tasks + [task];
      } else {
        LoadStep(rows, i);
      }
      i := i + 1;
    }
  }

  /** The loop's invariant survives appending the task a good row yields. */
  lemma LoadGood(rows: seq<Row>, i: nat, before: seq<TaskValue>, v: TaskValue)
    requires i < |rows| && DecodeRow(rows[i]) == Good(v)
    requires before + LoadValues(rows[i..]) == LoadValues(rows)
    ensures (before + [v]) + LoadValues(rows[i + 1..]) == LoadValues(rows)
  {
    LoadStep(rows, i);
    var rest := LoadValues(rows[i + 1..]);
    assert (before + [v]) + rest == before + ([v] + rest);
  }

  lemma ValuesAppend(tasks: seq<Task>, task: Task)
    ensures Values(tasks + [task]) == Values(tasks) + [task.Value()]
  {
  }

  /** One row of the load: its task, if any, ahead of what the later rows load. */
  lemma LoadStep(rows: seq<Row>, i: nat)
    requires i < |rows|
    ensures DecodeRow(rows[i]).Good? ==> LoadValues(rows[i..]) == [DecodeRow(rows[i]).value] + LoadValues(rows[i + 1..])
    ensures DecodeRow(rows[i]).Skip? ==> LoadValues(rows[i..]) == LoadValues(rows[i + 1..])
    ensures DecodeRow(rows[i]).Abort? ==> LoadValues(rows[i..]) == []
  {
    assert rows[i..][0] == rows[i] && rows[i..][1..] == rows[i + 1..];
  }

  /** TaskCsvDAO.save_all_tasks: the file at the path now holds one row per task, in order. */
  method CsvSaveAllTasks(path: string, tasks: seq<Task>, storage: Storage)
    modifies storage
    ensures storage.files == old(storage.files)[path := EncodeRows(Values(tasks))]
  {
    var vs := Values(tasks);
    var rows: seq<Row> := [];
    var i := 0;
    while i < |vs|
      invariant 0 <= i <= |vs|
      invariant rows == EncodeRows(vs[..i])
      invariant unchanged(storage)
    {
      assert vs[..i + 1] == vs[..i] + [vs[i]];
      EncodeRowsAppend(vs[..i], vs[i]);
      rows := rows + [EncodeRow(vs[i])];
      i := i + 1;
    }
    assert vs[..|vs|] == vs;
    storage.files := storage.files[path := rows];
  }

  lemma {:induction false} EncodeRowsAppend(vs: seq<TaskValue>, v: TaskValue)
    ensures EncodeRows(vs + [v]) == EncodeRows(vs) + [EncodeRow(v)]
  {
  }

  /** TaskTestDAO.get_all_tasks: six fixed tasks due some hours or days after `now`; a due
      date past the calendar's end is the OverflowError, which the DAO does not catch. */
  function TestTasks(now: Instant): (r: Result<seq<TaskValue>>)
    ensures r.Ok? <==> now + 5 * SecondsPerDay < MaxOrdinal * SecondsPerDay
    ensures r.Ok? ==> |r.value| == 6
  {
    var day, hour := SecondsPerDay, 3600;
    if now + 5 * day >= MaxOrdinal * SecondsPerDay then Err("date value out of range")
    else
      Ok([InitTask("Buy groceries", now + day, "Weekly grocery shopping", now),
          InitTask("Complete assignment", now + 3 * day, "Finish the programming assignment", now),
          InitRecurringTask("Weekly team meeting", now + 2 * day, 7 * day, "Regular team sync meeting", now),
          InitPriorityTask("Important client call", now + 4 * hour, 3, "High priority client discussion", now).value,
          InitPriorityTask("Review documents", now + 2 * day, 2, "Medium priority document review", now).value,
          InitPriorityTask("Organize desk", now + 5 * day, 1, "Low priority office organization", now).value])
  }

  /** The fixture has two plain tasks, one weekly recurring task and one priority task of
      each level, high first, none completed. */
  lemma TestTasksMix(now: Instant)
    requires now + 5 * SecondsPerDay < MaxOrdinal * SecondsPerDay
    ensures var ts := TestTasks(now).value;
      && ts[0].variant.Regular? && ts[1].variant.Regular?
      && ts[2].variant == Recurring(7 * SecondsPerDay, [])
      && ts[3].variant == Priority(3) && ts[4].variant == Priority(2) && ts[5].variant == Priority(1)
      && forall i :: 0 <= i < 6 ==> !ts[i].completed && ts[i].dateCreated == now && ts[i].dateDue > now
  {
  }

  /** TaskTestDAO.get_all_tasks as objects: six new tasks, or the OverflowError. */
  method TestGetAllTasks(now: Instant) returns (r: Result<seq<Task>>)
    ensures r.Ok? <==> TestTasks(now).Ok?
    ensures r.Err? ==> r.message == TestTasks(now).message
    ensures r.Ok? ==> Values(r.value) == TestTasks(now).value
    ensures r.Ok? ==> forall i :: 0 <= i < |r.value| ==> fresh(r.value[i])
  {
    var vs := TestTasks(now);
    if vs.Err? {
      return Err(vs.message);
    }
    var tasks: seq<Task> := [];
    var i := 0;
    while i < |vs.value|
      invariant 0 <= i <= |vs.value|
      invariant Values(tasks) == vs.value[..i]
      invariant forall j :: 0 <= j < |tasks| ==> fresh(tasks[j])
    {
      var task := new Task(vs.value[i]);
      ValuesAppend(tasks, task);
      assert vs.value[..i + 1] == vs.value[..i] + [vs.value[i]];
      tasks := tasks + [task];
      i := i + 1;
    }
    assert vs.value[..i] == vs.value;
    return Ok(tasks);
  }
}
