/**
 * The SQL a table object composes and hands to its statement performer:
 * column definitions, CREATE / ALTER / DROP, row counts, inserts, updates and
 * chunked bulk inserts and deletes, together with the table's name and its
 * column bookkeeping.
 *
 * The performer is modelled as an append-only log of the statements it is
 * given; executing them, and the rows the database returns, are outside the
 * model (a row count the database reports is a parameter).
 */
module SQLiteTable {
  import opened Wrappers
  import opened Strings

  // ---------------------------------------------------------------------------
  // Columns.

  /** The kinds a column can declare. */
  datatype ColumnKind =
    | Integer
    | Real
    | Text
    | DateISO8601FractionalSecondsAutoSet
    | DateISO8601FractionalSecondsAutoUpdate
    | Blob

  /** The column constraints, written after the type in declaration order. */
  datatype ColumnOption = PrimaryKey | Autoincrement | NotNull | Unique | Check

  /** A column: its name, kind, options in declaration order, and the text of its default value if it has one. */
  datatype Column = Column(name: string, kind: ColumnKind, options: seq<ColumnOption>, defaultValue: Option<string>)

  /** A foreign-key reference from a column of this table to a column of another table. */
  datatype Reference = Reference(tableColumn: Column, referencedTableName: string, referencedTableColumn: Column)

  /** A value bound to a `?` placeholder. */
  datatype Value = IntegerValue(i: int) | RealValue(r: real) | TextValue(s: string) | BlobValue(b: seq<bv8>) | NullValue

  /** One `(tableColumn, value)` pair of an insert or an update. */
  datatype Binding = Binding(tableColumn: Column, value: Value)

  /** A WHERE clause: its text (starting with ` WHERE`) and the values for its placeholders, if any. */
  datatype Where = Where(text: string, values: Option<seq<Value>>)

  /** The SQL type a kind is stored as: both date kinds are text. */
  function KindKeyword(kind: ColumnKind): (keyword: string)
    ensures keyword == "INTEGER" <==> kind == Integer
    ensures keyword == "REAL" <==> kind == Real
    ensures keyword == "TEXT" <==> kind.Text? || kind.DateISO8601FractionalSecondsAutoSet?
                                   || kind.DateISO8601FractionalSecondsAutoUpdate?
    ensures keyword == "BLOB" <==> kind == Blob
  {
    match kind
    case Integer => "INTEGER"
    case Real => "REAL"
    case Text => "TEXT"
    case DateISO8601FractionalSecondsAutoSet => "TEXT"
    case DateISO8601FractionalSecondsAutoUpdate => "TEXT"
    case Blob => "BLOB"
  }

  /** The text one option adds to a column definition. */
  function OptionText(option: ColumnOption): (text: string)
    ensures |text| >= 6 && text[0] == ' '
  {
    match option
    case PrimaryKey => " PRIMARY KEY"
    case Autoincrement => " AUTOINCREMENT"
    case NotNull => " NOT NULL"
    case Unique => " UNIQUE"
    case Check => " CHECK"
  }

  /** The options' texts, in declaration order. */
  function OptionsText(options: seq<ColumnOption>): string
  {
    if |options| == 0 then ""
    else OptionsText(options[..|options| - 1]) + OptionText(options[|options| - 1])
  }

  /** The default clause: ` DEFAULT (v)` when there is a default, nothing otherwise. */
  function DefaultText(defaultValue: Option<string>): string
  {
    match defaultValue
    case None => ""
    case Some(v) => " DEFAULT (" + v + ")"
  }

  /** The column definition used by CREATE TABLE and ADD COLUMN. */
  function ColumnDefinition(column: Column): string
  {
    column.name + " " + KindKeyword(column.kind) + OptionsText(column.options) + DefaultText(column.defaultValue)
  }

  /**
   * `createString`: the name, a space and the type keyword, then one text per
   * option in order, then the default clause.
   */
  method CreateString(column: Column) returns (definition: string)
    ensures definition == ColumnDefinition(column)
  {
    definition := column.name + " " + KindKeyword(column.kind);
    definition := AppendOptionTexts(definition, column.options);
    match column.defaultValue {
      case Some(v) => definition := definition + " DEFAULT (" + v + ")";
      case None =>
    }
  }

  /** The options loop of `createString`: each option's text, in order. */
  method AppendOptionTexts(definition: string, options: seq<ColumnOption>) returns (extended: string)
    ensures extended == definition + OptionsText(options)
  {
    extended := definition;
    var k := 0;
    while k < |options|
      invariant 0 <= k <= |options|
      invariant extended == definition + OptionsText(options[..k])
    {
      var text := OptionText(options[k]);
      OptionsTextStep(options, k);
      ConcatAssociates(definition, OptionsText(options[..k]), text);
      extended := extended + text;
      k := k + 1;
    }
    assert options[..k] == options;
  }

  /** One turn of the options loop: the next option's text. */
  lemma OptionsTextStep(options: seq<ColumnOption>, k: int)
    requires 0 <= k < |options|
    ensures OptionsText(options[..k + 1]) == OptionsText(options[..k]) + OptionText(options[k])
  {
    assert options[..k + 1][..k] == options[..k];
  }

  /** Which option's text ends with the given character (the five texts end differently). */
  function OptionEndingWith(c: char): (option: Option<ColumnOption>)
    ensures option.Some? ==> OptionText(option.value)[|OptionText(option.value)| - 1] == c
  {
    if c == 'Y' then Some(PrimaryKey)
    else if c == 'T' then Some(Autoincrement)
    else if c == 'L' then Some(NotNull)
    else if c == 'E' then Some(Unique)
    else if c == 'K' then Some(Check)
    else None
  }

  /** Reads a run of option texts back into the options, from the end. */
  function ParseOptions(s: string): Option<seq<ColumnOption>>
    decreases |s|
  {
    if |s| == 0 then Some([])
    else match OptionEndingWith(s[|s| - 1])
      case None => None
      case Some(option) =>
        var text := OptionText(option);
        if HasSuffix(s, text) then
          match ParseOptions(s[..|s| - |text|])
          case None => None
          case Some(init) => Some(init + [option])
        else None
  }

  /** The options text of a column determines its options: they are written in order, and each is recognisable. */
  lemma {:induction false} OptionsRoundTrip(options: seq<ColumnOption>)
    ensures ParseOptions(OptionsText(options)) == Some(options)
    decreases |options|
  {
    if |options| > 0 {
      var init, last := options[..|options| - 1], options[|options| - 1];
      assert init + [last] == options;
      OptionsRoundTrip(init);
      ParseOptionsStep(OptionsText(init), init, last);
    }
  }

  /** Reading back one more option text gives one more option. */
  lemma ParseOptionsStep(prefix: string, init: seq<ColumnOption>, option: ColumnOption)
    requires ParseOptions(prefix) == Some(init)
    ensures ParseOptions(prefix + OptionText(option)) == Some(init + [option])
  {
    OptionEndsUniquely(option);
    ParseAppendedText(prefix, OptionText(option), init, option);
  }

  /** The same step, over any text that ends with the character naming the option. */
  lemma ParseAppendedText(prefix: string, text: string, init: seq<ColumnOption>, option: ColumnOption)
    requires |text| > 0 && OptionEndingWith(text[|text| - 1]) == Some(option) && OptionText(option) == text
    requires ParseOptions(prefix) == Some(init)
    ensures ParseOptions(prefix + text) == Some(init + [option])
  {
    var s := prefix + text;
    assert s[|s| - 1] == text[|text| - 1];
    assert s[|s| - |text|..] == text;
    assert s[..|s| - |text|] == prefix;
  }

  /** The last character of an option's text names the option. */
  lemma OptionEndsUniquely(option: ColumnOption)
    ensures OptionEndingWith(OptionText(option)[|OptionText(option)| - 1]) == Some(option)
  {
  }

  /**
   * A column definition ends with `)` exactly when the column has a default,
   * and then with ` DEFAULT (v)`; every other definition ends with the type
   * keyword or the last option.
   */
  lemma DefaultClausePresentIff(column: Column)
    ensures var s := ColumnDefinition(column);
            |s| > 0 && (s[|s| - 1] == ')' <==> column.defaultValue.Some?)
    ensures column.defaultValue.Some? ==>
              HasSuffix(ColumnDefinition(column), " DEFAULT (" + column.defaultValue.value + ")")
  {
    var head := column.name + " " + KindKeyword(column.kind);
    var s := ColumnDefinition(column);
    var options := column.options;
    if column.defaultValue.None? {
      assert s == head + OptionsText(options);
      if |options| > 0 {
        var text := OptionText(options[|options| - 1]);
        assert s[|s| - 1] == text[|text| - 1];
      } else {
        assert s[|s| - 1] == KindKeyword(column.kind)[|KindKeyword(column.kind)| - 1];
      }
    } else {
      var clause := " DEFAULT (" + column.defaultValue.value + ")";
      assert s == head + OptionsText(options) + clause;
      assert s[|s| - |clause|..] == clause;
    }
  }

  /** The clause a reference adds to its column's definition. */
  function ReferenceClause(reference: Reference): string
  {
    " REFERENCES " + reference.referencedTableName + "(" + reference.referencedTableColumn.name + ") ON UPDATE CASCADE"
  }

  /** A column as CREATE TABLE lists it: its definition, then its reference clause if it has one. */
  function ColumnInfo(column: Column, referenceMap: map<string, Reference>): string
  {
    ColumnDefinition(column) + (if column.name in referenceMap then ReferenceClause(referenceMap[column.name]) else "")
  }

  /** A column carries a reference clause exactly when a reference is recorded under its name. */
  lemma ReferenceClausePresentIff(column: Column, referenceMap: map<string, Reference>)
    ensures var s := ColumnInfo(column, referenceMap);
            HasSuffix(s, " ON UPDATE CASCADE") <==> column.name in referenceMap
    ensures column.name in referenceMap ==>
              HasSuffix(ColumnInfo(column, referenceMap), ReferenceClause(referenceMap[column.name]))
  {
    var s := ColumnInfo(column, referenceMap);
    if column.name in referenceMap {
      var clause := ReferenceClause(referenceMap[column.name]);
      assert s == ColumnDefinition(column) + clause;
      SuffixOfAppend(ColumnDefinition(column), clause);
      ClauseEndsWithCascade(referenceMap[column.name]);
      SuffixTransitive(s, clause, " ON UPDATE CASCADE");
    } else {
      assert s == ColumnDefinition(column);
      NoCascadeEnding(column);
    }
  }

  /** Every reference clause ends with ` ON UPDATE CASCADE`. */
  lemma ClauseEndsWithCascade(reference: Reference)
    ensures HasSuffix(ReferenceClause(reference), " ON UPDATE CASCADE")
  {
    var clause := ReferenceClause(reference);
    var lead := " REFERENCES " + reference.referencedTableName + "(" + reference.referencedTableColumn.name;
    assert clause == lead + ") ON UPDATE CASCADE";
    SuffixOfAppend(lead, ") ON UPDATE CASCADE");
    SuffixOfAppend(")", " ON UPDATE CASCADE");
    SuffixTransitive(clause, ") ON UPDATE CASCADE", " ON UPDATE CASCADE");
  }

  /** A bare column definition never ends like a reference clause: its last two characters are never `DE`. */
  lemma NoCascadeEnding(column: Column)
    ensures !HasSuffix(ColumnDefinition(column), " ON UPDATE CASCADE")
  {
    var head := column.name + " " + KindKeyword(column.kind);
    var options := column.options;
    var tail := DefaultText(column.defaultValue);
    assert ColumnDefinition(column) == head + OptionsText(options) + tail;
    if column.defaultValue.Some? {
      assert tail[|tail| - 1] == ')';
      NotEndingInDE(head + OptionsText(options), tail);
    } else if |options| > 0 {
      var init := OptionsText(options[..|options| - 1]);
      var text := OptionText(options[|options| - 1]);
      assert tail == "";
      ConcatAssociates(head, init, text);
      OptionTextEnding(options[|options| - 1]);
      NotEndingInDE(head + init, text);
    } else {
      assert tail == "" && OptionsText(options) == "";
      KeywordEnding(column.kind);
      NotEndingInDE(column.name + " ", KindKeyword(column.kind));
    }
  }

  /** No option text ends in `DE`. */
  lemma OptionTextEnding(option: ColumnOption)
    ensures var text := OptionText(option);
            |text| > 1 && !(text[|text| - 1] == 'E' && text[|text| - 2] == 'D')
  {
  }

  /** No type keyword ends in `DE`. */
  lemma KeywordEnding(kind: ColumnKind)
    ensures var keyword := KindKeyword(kind);
            |keyword| > 1 && !(keyword[|keyword| - 1] == 'E' && keyword[|keyword| - 2] == 'D')
  {
  }

  /** A text whose tail does not end in `DE` does not end with ` ON UPDATE CASCADE`. */
  lemma NotEndingInDE(head: string, tail: string)
    requires |tail| > 0 && (tail[|tail| - 1] != 'E' || (|tail| > 1 && tail[|tail| - 2] != 'D'))
    ensures !HasSuffix(head + tail, " ON UPDATE CASCADE")
  {
    var s := head + tail;
    assert s[|s| - 1] == tail[|tail| - 1];
    if |tail| > 1 {
      assert s[|s| - 2] == tail[|tail| - 2];
    }
    assert !(s[|s| - 1] == 'E' && s[|s| - 2] == 'D');
  }

  // ---------------------------------------------------------------------------
  // Statement texts.

  /** Bit 0 of the table options: `withoutRowID`. */
  predicate WithoutRowID(options: int) {
    options % 2 == 1
  }

  function Quoted(name: string): string {
    "`" + name + "`"
  }

  /** `CREATE TABLE`, the optional ` IF NOT EXISTS`, the name, the column list, and the optional ` WITHOUT ROWID`. */
  function CreateStatement(name: string, options: int, columns: seq<Column>, referenceMap: map<string, Reference>,
                           ifNotExists: bool, separator: string): string
  {
    CreateHead(ifNotExists) + " " + Quoted(name) + " (" + Join(ColumnInfos(columns, referenceMap), separator) + ")"
    + (if WithoutRowID(options) then " WITHOUT ROWID" else "")
  }

  function CreateHead(ifNotExists: bool): string {
    "CREATE TABLE" + (if ifNotExists then " IF NOT EXISTS" else "")
  }

  /** The column list of CREATE TABLE, one entry per column in order. */
  function ColumnInfos(columns: seq<Column>, referenceMap: map<string, Reference>): (infos: seq<string>)
    ensures |infos| == |columns|
  {
    seq(|columns|, k requires 0 <= k < |columns| => ColumnInfo(columns[k], referenceMap))
  }

  /** `IF NOT EXISTS` is written exactly when asked for. */
  lemma CreateIfNotExistsIff(name: string, options: int, columns: seq<Column>, referenceMap: map<string, Reference>,
                             ifNotExists: bool, separator: string)
    ensures var s := CreateStatement(name, options, columns, referenceMap, ifNotExists, separator);
            HasPrefix(s, "CREATE TABLE ") && (HasPrefix(s, "CREATE TABLE IF NOT EXISTS `") <==> ifNotExists)
  {
    var s := CreateStatement(name, options, columns, referenceMap, ifNotExists, separator);
    var head := CreateHead(ifNotExists) + " ";
    var start := head + Quoted(name);
    var list := Join(ColumnInfos(columns, referenceMap), separator);
    var tail := if WithoutRowID(options) then " WITHOUT ROWID" else "";
    assert HasPrefix(s, head + "`") by {
      assert HasPrefix(Quoted(name), "`");
      PrefixAfterCommonHead(head, Quoted(name), "`");
      PrefixOfAppend(start, " (", head + "`");
      PrefixOfAppend(start + " (", list, head + "`");
      PrefixOfAppend(start + " (" + list, ")", head + "`");
      PrefixOfAppend(start + " (" + list + ")", tail, head + "`");
    }
    CreateOpeningIff(s, ifNotExists);
  }

  /** What follows `CREATE TABLE ` is the quoted name exactly when IF NOT EXISTS is absent. */
  lemma CreateOpeningIff(s: string, ifNotExists: bool)
    requires HasPrefix(s, CreateHead(ifNotExists) + " " + "`")
    ensures HasPrefix(s, "CREATE TABLE ") && (HasPrefix(s, "CREATE TABLE IF NOT EXISTS `") <==> ifNotExists)
  {
    var opening := CreateHead(ifNotExists) + " " + "`";
    if ifNotExists {
      assert opening == "CREATE TABLE IF NOT EXISTS `";
      assert s[..13] == opening[..13];
    } else {
      assert opening == "CREATE TABLE `";
      assert s[..13] == opening[..13];
      assert s[13] == '`';
    }
  }

  /** `WITHOUT ROWID` is written exactly when bit 0 of the options is set. */
  lemma CreateWithoutRowIDIff(name: string, options: int, columns: seq<Column>, referenceMap: map<string, Reference>,
                              ifNotExists: bool, separator: string)
    ensures var s := CreateStatement(name, options, columns, referenceMap, ifNotExists, separator);
            HasSuffix(s, ") WITHOUT ROWID") <==> WithoutRowID(options)
  {
    var body := CreateHead(ifNotExists) + " " + Quoted(name) + " (" + Join(ColumnInfos(columns, referenceMap), separator);
    OptionalTailIff(body, WithoutRowID(options));
  }

  /** A text closed by `)` ends with `) WITHOUT ROWID` exactly when ` WITHOUT ROWID` is appended. */
  lemma OptionalTailIff(body: string, withTail: bool)
    ensures HasSuffix(body + ")" + (if withTail then " WITHOUT ROWID" else ""), ") WITHOUT ROWID") <==> withTail
  {
    var closed := body + ")";
    assert closed[|closed| - 1] == ')';
    if withTail {
      SuffixOfAppend(body, ")");
      SuffixBeforeCommonTail(closed, " WITHOUT ROWID", ")");
    } else {
      assert closed + "" == closed;
    }
  }

  function RenameStatement(name: string, newName: string): string {
    "ALTER TABLE " + Quoted(name) + " RENAME TO " + Quoted(newName)
  }

  function AddColumnStatement(name: string, column: Column): string {
    "ALTER TABLE " + Quoted(name) + " ADD COLUMN " + ColumnDefinition(column)
  }

  function DropStatement(name: string): string {
    "DROP TABLE " + Quoted(name)
  }

  function CountStatement(name: string, where: Option<Where>): string {
    "SELECT COUNT(*) FROM " + Quoted(name) + (if where.Some? then where.value.text else "")
  }

  /** `columnNames(for:)`: the names, each in backquotes, joined with commas. */
  function ColumnNames(columns: seq<Column>): string {
    Join(QuotedNames(columns), ",")
  }

  /** Each column's name in backquotes, in order. */
  function QuotedNames(columns: seq<Column>): (quoted: seq<string>)
    ensures |quoted| == |columns|
  {
    seq(|columns|, k requires 0 <= k < |columns| => Quoted(columns[k].name))
  }

  /** `n` copies of a placeholder, joined with commas. */
  function Placeholders(placeholder: string, n: nat): string {
    Join(Repeat(placeholder, n), ",")
  }

  /** `INSERT INTO` or `INSERT OR REPLACE INTO` with the columns of `bindings` and one `?` for each. */
  function InsertStatement(verb: string, name: string, bindings: seq<Binding>): string {
    verb + " " + Quoted(name) + " (" + ColumnNames(ColumnsOf(bindings)) + ") VALUES (" + Placeholders("?", |bindings|) + ")"
  }

  function BoundValues(bindings: seq<Binding>): (values: seq<Value>)
    ensures |values| == |bindings|
  {
    seq(|bindings|, k requires 0 <= k < |bindings| => bindings[k].value)
  }

  /** A bulk insert of one chunk: one column, one `(?)` per value. */
  function InsertRowsStatement(name: string, column: Column, count: nat): string {
    "INSERT OR REPLACE INTO " + Quoted(name) + " (" + ColumnNames([column]) + ") VALUES " + Placeholders("(?)", count)
  }

  /** A bulk delete of one chunk: rows whose column value is one of the chunk's. */
  function DeleteRowsStatement(name: string, column: Column, count: nat): string {
    "DELETE FROM " + Quoted(name) + " WHERE " + Quoted(column.name) + " IN (" + Placeholders("?", count) + ")"
  }

  /** `UPDATE`: one `` `c` = ? `` per binding, joined with the separator, then the WHERE clause. */
  function UpdateStatement(name: string, bindings: seq<Binding>, where: Where, separator: string): string {
    "UPDATE " + Quoted(name) + " SET " + Join(Assignments(bindings), separator) + where.text
  }

  /** The SET list of an update: `` `c` = ? `` for each binding, in order. */
  function Assignments(bindings: seq<Binding>): (assignments: seq<string>)
    ensures |assignments| == |bindings|
  {
    seq(|bindings|, k requires 0 <= k < |bindings| => Quoted(bindings[k].tableColumn.name) + " = ?")
  }

  /** The values of an update: its own values first, in binding order, then the WHERE clause's. */
  function UpdateValues(bindings: seq<Binding>, where: Where): (values: seq<Value>)
    ensures |values| == |bindings| + |where.values.GetOr([])|
    ensures forall k :: 0 <= k < |bindings| ==> values[k] == bindings[k].value
    ensures values[|bindings|..] == where.values.GetOr([])
  {
    BoundValues(bindings) + where.values.GetOr([])
  }

  // ---------------------------------------------------------------------------
  // Placeholders and the values bound to them.

  lemma PlaceholderCount(placeholder: string, n: nat)
    requires Count(placeholder, '?') == 1
    ensures Count(Placeholders(placeholder, n), '?') == n
  {
    CountJoinPlainSeparator(Repeat(placeholder, n), ",", '?');
    CountAllRepeat(placeholder, n, '?');
  }

  /** The columns of `bindings`, in order. */
  function ColumnsOf(bindings: seq<Binding>): (columns: seq<Column>)
    ensures |columns| == |bindings|
  {
    seq(|bindings|, k requires 0 <= k < |bindings| => bindings[k].tableColumn)
  }

  /** No column name holds a question mark. */
  predicate PlainNames(columns: seq<Column>) {
    forall k :: 0 <= k < |columns| ==> '?' !in columns[k].name
  }

  lemma ColumnNamesHaveNoPlaceholder(columns: seq<Column>)
    requires PlainNames(columns)
    ensures Count(ColumnNames(columns), '?') == 0
  {
    var quoted := QuotedNames(columns);
    QuotedNamesPlain(columns);
    CountJoinPlainSeparator(quoted, ",", '?');
    CountAllAbsent(quoted, '?');
  }

  lemma QuotedNamesPlain(columns: seq<Column>)
    requires PlainNames(columns)
    ensures forall k :: 0 <= k < |columns| ==> '?' !in QuotedNames(columns)[k]
  {
    forall k | 0 <= k < |columns|
      ensures '?' !in QuotedNames(columns)[k]
    {
      var name := columns[k].name;
      assert QuotedNames(columns)[k] == "`" + name + "`";
      assert forall i :: 0 <= i < |"`" + name + "`"| ==> ("`" + name + "`")[i] == '`' || ("`" + name + "`")[i] in name;
    }
  }

  /**
   * The column list of an insert reads back, split at its commas, as the
   * quoted names of the bound columns, and the k-th value bound is the value
   * of the k-th of them.
   */
  lemma InsertColumnsMatchValues(bindings: seq<Binding>)
    requires |bindings| > 0
    requires forall k :: 0 <= k < |bindings| ==> ',' !in bindings[k].tableColumn.name
    ensures var names := Split(ColumnNames(ColumnsOf(bindings)), ',');
            |names| == |BoundValues(bindings)|
            && forall k :: 0 <= k < |names| ==>
                 names[k] == Quoted(bindings[k].tableColumn.name) && BoundValues(bindings)[k] == bindings[k].value
  {
    var columns := ColumnsOf(bindings);
    var quoted := QuotedNames(columns);
    SplitJoin(quoted, ',');
  }

  /** An insert has one `?` per bound value, provided no name holds a `?`. */
  lemma InsertPlaceholdersMatchValues(verb: string, name: string, bindings: seq<Binding>)
    requires '?' !in verb && '?' !in name && PlainNames(ColumnsOf(bindings))
    ensures Count(InsertStatement(verb, name, bindings), '?') == |BoundValues(bindings)|
  {
    var lead := verb + " " + Quoted(name) + " (";
    var names := ColumnNames(ColumnsOf(bindings));
    var marks := Placeholders("?", |bindings|);
    assert Count(lead, '?') == 0 by { CountAbsent(lead, '?'); }
    assert Count(names, '?') == 0 by { ColumnNamesHaveNoPlaceholder(ColumnsOf(bindings)); }
    assert Count(marks, '?') == |bindings| by { PlaceholderCount("?", |bindings|); }
    assert Count(") VALUES (", '?') == 0 by { CountAbsent(") VALUES (", '?'); }
    assert Count(")", '?') == 0 by { CountAbsent(")", '?'); }
    CountOfFive(lead, names, ") VALUES (", marks, ")", '?');
  }

  lemma CountOfFive(a: string, b: string, c: string, d: string, e: string, x: char)
    ensures Count(a + b + c + d + e, x) == Count(a, x) + Count(b, x) + Count(c, x) + Count(d, x) + Count(e, x)
  {
    CountConcat(a, b, x);
    CountConcat(a + b, c, x);
    CountConcat(a + b + c, d, x);
    CountConcat(a + b + c + d, e, x);
  }

  /**
   * The SET list of an update has one `?` per binding, ahead of the WHERE
   * clause's, provided no name and not the separator holds a `?`.
   */
  lemma UpdatePlaceholdersMatchValues(name: string, bindings: seq<Binding>, where: Where, separator: string)
    requires '?' !in name && '?' !in separator && PlainNames(ColumnsOf(bindings))
    ensures Count(UpdateStatement(name, bindings, where, separator), '?') == |bindings| + Count(where.text, '?')
  {
    var lead := "UPDATE " + Quoted(name) + " SET ";
    var list := Join(Assignments(bindings), separator);
    AssignmentsPlaceholders(bindings, separator);
    CountAbsent(lead, '?');
    CountConcat(lead, list, '?');
    CountConcat(lead + list, where.text, '?');
  }

  /** The SET list holds one `?` per binding. */
  lemma AssignmentsPlaceholders(bindings: seq<Binding>, separator: string)
    requires '?' !in separator && PlainNames(ColumnsOf(bindings))
    ensures Count(Join(Assignments(bindings), separator), '?') == |bindings|
  {
    var assignments := Assignments(bindings);
    forall k | 0 <= k < |bindings|
      ensures Count(assignments[k], '?') == 1
    {
      assert bindings[k].tableColumn == ColumnsOf(bindings)[k];
      AssignmentPlaceholder(bindings[k].tableColumn.name);
    }
    CountJoinPlainSeparator(assignments, separator, '?');
    CountAllOnes(assignments, '?');
  }

  /** One assignment of an update holds exactly one `?` when the name holds none. */
  lemma AssignmentPlaceholder(name: string)
    requires '?' !in name
    ensures Count(Quoted(name) + " = ?", '?') == 1
  {
    CountAbsent(Quoted(name), '?');
    CountConcat(Quoted(name), " = ?", '?');
    CountAbsent(" = ", '?');
    assert " = ?"[..3] == " = ";
  }

  // ---------------------------------------------------------------------------
  // Chunked bulk statements.

  /** The values cut into consecutive chunks of `size`, the last one possibly shorter. */
  function Chunks(values: seq<Value>, size: nat): seq<seq<Value>>
    requires size > 0
    decreases |values|
  {
    if |values| == 0 then []
    else
      var n := if |values| < size then |values| else size;
      [values[..n]] + Chunks(values[n..], size)
  }

  function Flatten(chunks: seq<seq<Value>>): seq<Value>
  {
    if |chunks| == 0 then [] else chunks[0] + Flatten(chunks[1..])
  }

  /** The chunks are non-empty, no longer than the limit, and together the values in order. */
  lemma {:induction false} ChunksPartition(values: seq<Value>, size: nat)
    requires size > 0
    ensures Flatten(Chunks(values, size)) == values
    ensures forall chunk :: chunk in Chunks(values, size) ==> 0 < |chunk| <= size
    decreases |values|
  {
    if |values| > 0 {
      var n := if |values| < size then |values| else size;
      ChunksPartition(values[n..], size);
      var chunks := Chunks(values, size);
      assert chunks[1..] == Chunks(values[n..], size);
      assert values[..n] + values[n..] == values;
    }
  }

  /** The two chunked bulk statements. */
  datatype Bulk = InsertOrReplaceRows | DeleteRows

  /** The statement of one chunk of `count` values. */
  function BulkStatement(bulk: Bulk, name: string, column: Column, count: nat): string {
    match bulk
    case InsertOrReplaceRows => InsertRowsStatement(name, column, count)
    case DeleteRows => DeleteRowsStatement(name, column, count)
  }

  /** One statement per chunk, each bound to that chunk's values. */
  function ChunkStatements(bulk: Bulk, name: string, column: Column, chunks: seq<seq<Value>>): (statements: seq<Statement>)
    ensures |statements| == |chunks|
  {
    if |chunks| == 0 then []
    else [Statement(BulkStatement(bulk, name, column, |chunks[0]|), Some(chunks[0]), false)]
         + ChunkStatements(bulk, name, column, chunks[1..])
  }

  /** The k-th statement is the k-th chunk's, bound to its values. */
  lemma {:induction false} ChunkStatementsAt(bulk: Bulk, name: string, column: Column, chunks: seq<seq<Value>>)
    ensures forall k :: 0 <= k < |chunks| ==>
              ChunkStatements(bulk, name, column, chunks)[k]
              == Statement(BulkStatement(bulk, name, column, |chunks[k]|), Some(chunks[k]), false)
    decreases |chunks|
  {
    if |chunks| > 0 {
      ChunkStatementsAt(bulk, name, column, chunks[1..]);
    }
  }

  /**
   * Every chunked statement has one placeholder per value of its chunk, and
   * the chunks' values are all the values in order, provided the names hold
   * no `?`.
   */
  lemma BulkPlaceholdersMatchValues(bulk: Bulk, name: string, column: Column, values: seq<Value>, size: nat)
    requires size > 0 && '?' !in name && '?' !in column.name
    ensures var statements := ChunkStatements(bulk, name, column, Chunks(values, size));
            forall k :: 0 <= k < |statements| ==>
              statements[k].values.Some? && 0 < |statements[k].values.value| <= size
              && Count(statements[k].text, '?') == |statements[k].values.value|
    ensures Flatten(Chunks(values, size)) == values
  {
    var chunks := Chunks(values, size);
    ChunksPartition(values, size);
    ChunkStatementsAt(bulk, name, column, chunks);
    forall k | 0 <= k < |chunks|
      ensures Count(BulkStatement(bulk, name, column, |chunks[k]|), '?') == |chunks[k]|
    {
      assert chunks[k] in chunks;
      BulkPlaceholderCount(bulk, name, column, |chunks[k]|);
    }
  }

  lemma BulkPlaceholderCount(bulk: Bulk, name: string, column: Column, n: nat)
    requires '?' !in name && '?' !in column.name
    ensures Count(BulkStatement(bulk, name, column, n), '?') == n
  {
    match bulk
    case InsertOrReplaceRows => InsertRowsPlaceholderCount(name, column, n);
    case DeleteRows => DeleteRowsPlaceholderCount(name, column, n);
  }

  lemma InsertRowsPlaceholderCount(name: string, column: Column, n: nat)
    requires '?' !in name && '?' !in column.name
    ensures Count(InsertRowsStatement(name, column, n), '?') == n
  {
    var lead := "INSERT OR REPLACE INTO " + Quoted(name) + " (";
    var names := ColumnNames([column]);
    var marks := Placeholders("(?)", n);
    assert Count(lead, '?') == 0 by { CountAbsent(lead, '?'); }
    assert Count(names, '?') == 0 by {
      assert PlainNames([column]);
      ColumnNamesHaveNoPlaceholder([column]);
    }
    assert Count(marks, '?') == n by {
      CountAbsent("(", '?');
      CountAbsent(")", '?');
      CountConcat("(", "?", '?');
      CountConcat("(?", ")", '?');
      assert "(?)" == "(" + "?" + ")";
      PlaceholderCount("(?)", n);
    }
    assert Count(") VALUES ", '?') == 0 by { CountAbsent(") VALUES ", '?'); }
    CountOfFive(lead, names, ") VALUES ", marks, "", '?');
    assert lead + names + ") VALUES " + marks + "" == lead + names + ") VALUES " + marks;
  }

  lemma DeleteRowsPlaceholderCount(name: string, column: Column, n: nat)
    requires '?' !in name && '?' !in column.name
    ensures Count(DeleteRowsStatement(name, column, n), '?') == n
  {
    var lead := "DELETE FROM " + Quoted(name) + " WHERE " + Quoted(column.name) + " IN (";
    var marks := Placeholders("?", n);
    assert Count(lead, '?') == 0 by { CountAbsent(lead, '?'); }
    assert Count(marks, '?') == n by { PlaceholderCount("?", n); }
    assert Count(")", '?') == 0 by { CountAbsent(")", '?'); }
    CountConcat(lead, marks, '?');
    CountConcat(lead + marks, ")", '?');
  }

  // ---------------------------------------------------------------------------
  // The statement performer.

  /** A statement handed to the performer: its text, its values, and whether it is performed at once (`perform`). */
  datatype Statement = Statement(text: string, values: Option<seq<Value>>, immediately: bool)

  /**
   * The statement performer, reduced to the statements it is given, in order,
   * and its `variableNumberLimit`.
   */
  class StatementPerformer {
    var log: seq<Statement>
    const variableNumberLimit: nat

    constructor(variableNumberLimit: nat)
      ensures log == [] && this.variableNumberLimit == variableNumberLimit
    {
      log := [];
      this.variableNumberLimit := variableNumberLimit;
    }

    /** `addToTransactionOrPerform(statement:values:)`. */
    method AddToTransactionOrPerform(text: string, values: Option<seq<Value>>)
      modifies this
      ensures log == old(log) + [Statement(text, values, false)]
    {
      log := log + [Statement(text, values, false)];
    }

    /** `perform(statement:values:)`, whose result rows are not modelled. */
    method Perform(text: string, values: Option<seq<Value>>)
      modifies this
      ensures log == old(log) + [Statement(text, values, true)]
    {
      log := log + [Statement(text, values, true)];
    }
  }

  // ---------------------------------------------------------------------------
  // Column bookkeeping.

  /** The key a column is looked up by: its name followed by `TableColumn`. */
  function MemberKey(column: Column): string {
    column.name + "TableColumn"
  }

  lemma MemberKeyInjective(a: Column, b: Column)
    ensures MemberKey(a) == MemberKey(b) <==> a.name == b.name
  {
    if MemberKey(a) == MemberKey(b) {
      assert MemberKey(a)[..|a.name|] == a.name;
      assert MemberKey(b)[..|b.name|] == b.name;
    }
  }

  /** The lookup map built column by column; a later column with the same name replaces an earlier one. */
  function ColumnsMap(columns: seq<Column>): map<string, Column>
  {
    if |columns| == 0 then map[]
    else ColumnsMap(columns[..|columns| - 1])[MemberKey(columns[|columns| - 1]) := columns[|columns| - 1]]
  }

  /** Every column is in the map, and every entry is one of the columns, under its own key. */
  lemma {:induction false} ColumnsMapSound(columns: seq<Column>)
    ensures forall k :: 0 <= k < |columns| ==> MemberKey(columns[k]) in ColumnsMap(columns)
    ensures forall key :: key in ColumnsMap(columns) ==>
              ColumnsMap(columns)[key] in columns && MemberKey(ColumnsMap(columns)[key]) == key
    decreases |columns|
  {
    if |columns| > 0 {
      var init := columns[..|columns| - 1];
      ColumnsMapSound(init);
      assert forall k :: 0 <= k < |init| ==> init[k] == columns[k];
    }
  }

  /** A column's key finds that column unless a later column has the same name. */
  lemma {:induction false} ColumnsMapFindsLast(columns: seq<Column>, k: int)
    requires 0 <= k < |columns|
    requires forall j :: k < j < |columns| ==> columns[j].name != columns[k].name
    ensures MemberKey(columns[k]) in ColumnsMap(columns)
    ensures ColumnsMap(columns)[MemberKey(columns[k])] == columns[k]
    decreases |columns|
  {
    ColumnsMapSound(columns);
    if k < |columns| - 1 {
      var init := columns[..|columns| - 1];
      ColumnsMapFindsLast(init, k);
      MemberKeyInjective(columns[|columns| - 1], columns[k]);
    }
  }

  /** The reference map built reference by reference, keyed by the referencing column's name; a later one wins. */
  function ReferenceMap(references: seq<Reference>): map<string, Reference>
  {
    if |references| == 0 then map[]
    else ReferenceMap(references[..|references| - 1])[references[|references| - 1].tableColumn.name := references[|references| - 1]]
  }

  /** A reference is recorded exactly under the names of the referencing columns. */
  lemma {:induction false} ReferenceMapKeys(references: seq<Reference>)
    ensures forall name :: name in ReferenceMap(references) <==>
              exists k :: 0 <= k < |references| && references[k].tableColumn.name == name
    ensures forall name :: name in ReferenceMap(references) ==> ReferenceMap(references)[name] in references
    decreases |references|
  {
    if |references| > 0 {
      var init := references[..|references| - 1];
      ReferenceMapKeys(init);
      assert forall k :: 0 <= k < |init| ==> init[k] == references[k];
    }
  }

  // ---------------------------------------------------------------------------
  // The table.

  /**
   * A table: its name, options, references, the performer it hands its
   * statements to, and its columns together with the lookup map over them.
   */
  class Table {
    var name: string
    const options: int
    const referenceMap: map<string, Reference>
    const performer: StatementPerformer
    var tableColumns: seq<Column>
    var tableColumnsMap: map<string, Column>

    /** The lookup map is always the one built from the columns. */
    predicate Valid()
      reads this
    {
      tableColumnsMap == ColumnsMap(tableColumns)
    }

    /** `init`: store the fields, build the reference map, then key every column by its name. */
    constructor(name: string, options: int, tableColumns: seq<Column>, references: seq<Reference>,
                performer: StatementPerformer)
      ensures Valid()
      ensures this.name == name && this.options == options && this.tableColumns == tableColumns
      ensures referenceMap == ReferenceMap(references) && this.performer == performer
    {
      var references' := map[];
      var r := 0;
      while r < |references|
        invariant 0 <= r <= |references|
        invariant references' == ReferenceMap(references[..r])
      {
        assert references[..r + 1][..r] == references[..r];
        references' := references'[references[r].tableColumn.name := references[r]];
        r := r + 1;
      }
      assert references[..r] == references;
      var columnsMap := map[];
      var k := 0;
      while k < |tableColumns|
        invariant 0 <= k <= |tableColumns|
        invariant columnsMap == ColumnsMap(tableColumns[..k])
      {
        assert tableColumns[..k + 1][..k] == tableColumns[..k];
        columnsMap := columnsMap[MemberKey(tableColumns[k]) := tableColumns[k]];
        k := k + 1;
      }
      assert tableColumns[..k] == tableColumns;
      this.name := name;
      this.options := options;
      this.tableColumns := tableColumns;
      this.referenceMap := references';
      this.performer := performer;
      this.tableColumnsMap := columnsMap;
    }

    /** The `dynamicMember` subscript: the column under a key; the source traps on a missing key. */
    function ColumnFor(member: string): (column: Column)
      reads this
      requires Valid() && member in tableColumnsMap
      ensures column in tableColumns && MemberKey(column) == member
    {
      ColumnsMapSound(tableColumns);
      tableColumnsMap[member]
    }

    /** `create(ifNotExists:)`: each column's definition with its reference clause, in one CREATE TABLE. */
    method Create(ifNotExists: bool, separator: string)
      modifies performer
      ensures performer.log == old(performer.log)
                + [Statement(CreateStatement(name, options, tableColumns, referenceMap, ifNotExists, separator), None, false)]
    {
      var columnInfos := ColumnInfoTexts();
      var statement := CreateHead(ifNotExists) + " " + Quoted(name) + " (" + Join(columnInfos, separator) + ")"
                       + (if WithoutRowID(options) then " WITHOUT ROWID" else "");
      performer.AddToTransactionOrPerform(statement, None);
    }

    /** The column loop of `create(ifNotExists:)`: each column's definition, then its reference clause if any. */
    method ColumnInfoTexts() returns (columnInfos: seq<string>)
      ensures columnInfos == ColumnInfos(tableColumns, referenceMap)
    {
      columnInfos := [];
      var k := 0;
      while k < |tableColumns|
        invariant 0 <= k <= |tableColumns| && |columnInfos| == k
        invariant forall j :: 0 <= j < k ==> columnInfos[j] == ColumnInfo(tableColumns[j], referenceMap)
      {
        var columnInfo := CreateString(tableColumns[k]);
        if tableColumns[k].name in referenceMap {
          columnInfo := columnInfo + ReferenceClause(referenceMap[tableColumns[k].name]);
        }
        columnInfos := columnInfos + [columnInfo];
        k := k + 1;
      }
    }

    /** `rename(to:)`: ALTER TABLE under the old name, then the new name; the columns stay. */
    method Rename(newName: string)
      requires Valid()
      modifies this, performer
      ensures Valid() && name == newName
      ensures tableColumns == old(tableColumns) && tableColumnsMap == old(tableColumnsMap)
      ensures performer.log == old(performer.log) + [Statement(RenameStatement(old(name), newName), None, false)]
    {
      performer.AddToTransactionOrPerform(RenameStatement(name, newName), None);
      name := newName;
    }

    /** `add(_ tableColumn:)`: ADD COLUMN with its definition, then the column is appended and keyed. */
    method AddColumn(column: Column)
      requires Valid()
      modifies this, performer
      ensures Valid() && name == old(name)
      ensures tableColumns == old(tableColumns) + [column]
      ensures tableColumnsMap == old(tableColumnsMap)[MemberKey(column) := column]
      ensures performer.log == old(performer.log) + [Statement(AddColumnStatement(name, column), None, false)]
    {
      var definition := CreateString(column);
      performer.AddToTransactionOrPerform("ALTER TABLE " + Quoted(name) + " ADD COLUMN " + definition, None);
      tableColumns := tableColumns + [column];
      tableColumnsMap := tableColumnsMap[MemberKey(column) := column];
      assert tableColumns[..|tableColumns| - 1] == old(tableColumns);
    }

    /** `drop()`. */
    method Drop()
      modifies performer
      ensures performer.log == old(performer.log) + [Statement(DropStatement(name), None, false)]
    {
      performer.AddToTransactionOrPerform(DropStatement(name), None);
    }

    /** `count(where:)`: runs SELECT COUNT(*) at once; `reported` is the count the database returns. */
    method Count(where: Option<Where>, reported: int) returns (count: int)
      modifies performer
      ensures count == reported
      ensures performer.log == old(performer.log)
                + [Statement(CountStatement(name, where), if where.Some? then where.value.values else None, true)]
    {
      performer.Perform(CountStatement(name, where), if where.Some? then where.value.values else None);
      count := reported;
    }

    /** `hasRow(where:)`: whether the count is positive. */
    method HasRow(where: Where, reported: int) returns (has: bool)
      modifies performer
      ensures has <==> reported > 0
      ensures performer.log == old(performer.log) + [Statement(CountStatement(name, Some(where)), where.values, true)]
    {
      var count := Count(Some(where), reported);
      has := count > 0;
    }

    /** `insertRow(_:)`: the bound columns, one `?` each, and their values in the same order. */
    method InsertRow(bindings: seq<Binding>)
      modifies performer
      ensures performer.log == old(performer.log)
                + [Statement(InsertStatement("INSERT INTO", name, bindings), Some(BoundValues(bindings)), false)]
    {
      performer.AddToTransactionOrPerform(InsertStatement("INSERT INTO", name, bindings), Some(BoundValues(bindings)));
    }

    /** `insertOrReplaceRow(_:)`: as `insertRow`, with INSERT OR REPLACE. */
    method InsertOrReplaceRow(bindings: seq<Binding>)
      modifies performer
      ensures performer.log == old(performer.log)
                + [Statement(InsertStatement("INSERT OR REPLACE INTO", name, bindings), Some(BoundValues(bindings)), false)]
    {
      performer.AddToTransactionOrPerform(InsertStatement("INSERT OR REPLACE INTO", name, bindings),
                                          Some(BoundValues(bindings)));
    }

    /** `insertOrReplaceRows(_:values:)`: one statement per chunk of at most `variableNumberLimit` values. */
    method InsertOrReplaceRows(column: Column, values: seq<Value>)
      requires performer.variableNumberLimit > 0
      modifies performer
      ensures performer.log == old(performer.log)
                + ChunkStatements(Bulk.InsertOrReplaceRows, name, column, Chunks(values, performer.variableNumberLimit))
    {
      PerformInChunks(Bulk.InsertOrReplaceRows, column, values);
    }

    /** `update(_:where:)`: the SET list and the WHERE clause; the bound values, then the clause's. */
    method Update(bindings: seq<Binding>, where: Where, separator: string)
      modifies performer
      ensures performer.log == old(performer.log)
                + [Statement(UpdateStatement(name, bindings, where, separator), Some(UpdateValues(bindings, where)), false)]
    {
      performer.AddToTransactionOrPerform(UpdateStatement(name, bindings, where, separator),
                                          Some(UpdateValues(bindings, where)));
    }

    /** `deleteRows(_:values:)`: one DELETE per chunk of at most `variableNumberLimit` values. */
    method DeleteRows(column: Column, values: seq<Value>)
      requires performer.variableNumberLimit > 0
      modifies performer
      ensures performer.log == old(performer.log)
                + ChunkStatements(Bulk.DeleteRows, name, column, Chunks(values, performer.variableNumberLimit))
    {
      PerformInChunks(Bulk.DeleteRows, column, values);
    }

    /** `forEachChunk(chunkSize:)` over the values, handing each chunk's statement to the performer. */
    method PerformInChunks(bulk: Bulk, column: Column, values: seq<Value>)
      requires performer.variableNumberLimit > 0
      modifies performer
      ensures performer.log == old(performer.log)
                + ChunkStatements(bulk, name, column, Chunks(values, performer.variableNumberLimit))
    {
      var limit := performer.variableNumberLimit;
      var rest := values;
      ghost var target := performer.log + ChunkStatements(bulk, name, column, Chunks(values, limit));
      while |rest| > 0
        invariant performer.log + ChunkStatements(bulk, name, column, Chunks(rest, limit)) == target
        decreases |rest|
      {
        var size := if |rest| < limit then |rest| else limit;
        var chunk := rest[..size];
        var statement := BulkStatement(bulk, name, column, |chunk|);
        ChunkStatementsStep(bulk, name, column, rest, limit);
        ghost var before := performer.log;
        performer.AddToTransactionOrPerform(statement, Some(chunk));
        rest := rest[size..];
        ConcatAssociates(before, [Statement(statement, Some(chunk), false)],
                         ChunkStatements(bulk, name, column, Chunks(rest, limit)));
      }
    }
  }

  /** The statements of the chunks of `rest`: the first chunk's, then those of what follows it. */
  lemma ChunkStatementsStep(bulk: Bulk, name: string, column: Column, rest: seq<Value>, size: nat)
    requires size > 0 && |rest| > 0
    ensures var n := if |rest| < size then |rest| else size;
            ChunkStatements(bulk, name, column, Chunks(rest, size))
            == [Statement(BulkStatement(bulk, name, column, n), Some(rest[..n]), false)]
               + ChunkStatements(bulk, name, column, Chunks(rest[n..], size))
  {
    var n := if |rest| < size then |rest| else size;
    assert Chunks(rest, size)[1..] == Chunks(rest[n..], size);
  }
}
