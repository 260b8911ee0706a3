/** SqlRepositoryBase: the CRUD query templates built inside the GetQuery
    lambdas, their routing through the shared template cache, and the check
    GetPrimitiveList makes on its element type. */
module Repository {
  import opened Wrappers
  import opened Text
  import opened Entities
  import opened QueryHelpers
  import opened QueryCache

  /* ---------------------------------------------------------------------
     Layout of the verbatim templates
     --------------------------------------------------------------------- */

  function Spaces(n: nat): (r: string)
    ensures |r| == n && forall i :: 0 <= i < n ==> r[i] == ' '
  {
    seq(n, _ => ' ')
  }

  /** A line break and the n spaces of indentation that open a template line. */
  function Break(n: nat): (r: string)
    ensures |r| == n + 1 && r[0] == '\n' && forall i :: 1 <= i < |r| ==> r[i] == ' '
  {
    "\n" + Spaces(n)
  }

  lemma BreakIsBlank(n: nat)
    ensures IsNullOrWhiteSpace(Break(n)) && NoBraces(Break(n))
  {
  }

  const ScopeIdentity := "SELECT SCOPE_IDENTITY() AS [SCOPE_IDENTITY];"

  /** A statement as the templates lay it out: a line break and twenty spaces,
      the statement keyword, the table, and the remaining lines. */
  function Statement(verb: string, table: string, tail: string): string
  {
    Break(20) + StatementBody(verb, table, tail)
  }

  /** The statement as the cache stores it, once trimmed. */
  function StatementBody(verb: string, table: string, tail: string): string
  {
    verb + table + tail
  }

  /** The table reference with the schema in its slot. */
  function SchemaTable(schema: string, name: string): string
  {
    "[" + schema + "].[" + name + "]"
  }

  /* ---------------------------------------------------------------------
     Column lists
     --------------------------------------------------------------------- */

  /** The columns CreateRecord inserts: all but generated keys, in order. */
  function InsertColumns(cols: seq<Field>): (r: seq<Field>)
    ensures forall f :: f in r <==> f in cols && !IsGeneratedKey(f)
    ensures IsSubsequence(r, cols)
  {
    if cols == [] then []
    else if IsGeneratedKey(cols[0]) then InsertColumns(cols[1..])
    else [cols[0]] + InsertColumns(cols[1..])
  }

  /** The columns UpdateRecord assigns: all but key-flagged ones, in order. */
  function UpdateColumns(cols: seq<Field>): (r: seq<Field>)
    ensures forall f :: f in r <==> f in cols && !IsKey(f)
    ensures IsSubsequence(r, cols)
  {
    if cols == [] then []
    else if IsKey(cols[0]) then UpdateColumns(cols[1..])
    else [cols[0]] + UpdateColumns(cols[1..])
  }

  function ColumnStrings(cols: seq<Field>): (r: seq<string>)
    ensures |r| == |cols| && forall i :: 0 <= i < |cols| ==> r[i] == ToColumnString(cols[i])
  {
    if cols == [] then [] else [ToColumnString(cols[0])] + ColumnStrings(cols[1..])
  }

  function ParameterStrings(cols: seq<Field>): (r: seq<string>)
    ensures |r| == |cols| && forall i :: 0 <= i < |cols| ==> r[i] == ToParameterString(cols[i])
  {
    if cols == [] then [] else [ToParameterString(cols[0])] + ParameterStrings(cols[1..])
  }

  /** "[C] = @C" for a column C. */
  function KeyMatch(p: Field): string
  {
    ToColumnString(p) + " = " + ToParameterString(p)
  }

  function Assignments(cols: seq<Field>): (r: seq<string>)
    ensures |r| == |cols| && forall i :: 0 <= i < |cols| ==> r[i] == KeyMatch(cols[i])
  {
    if cols == [] then [] else [KeyMatch(cols[0])] + Assignments(cols[1..])
  }

  /* ---------------------------------------------------------------------
     The five templates, over the text of the table reference
     --------------------------------------------------------------------- */

  function MissingKeyMessage(typeName: string): string
  {
    "A property on entity class " + typeName + " must have the name Id or a key attribute"
  }

  function InsertTail(cols: seq<Field>): string
  {
    Break(31) + "(" + Join(",", ColumnStrings(cols)) + ")"
    + Break(25) + "VALUES"
    + Break(31) + "(" + Join(",", ParameterStrings(cols)) + ");"
    + Break(20) + ScopeIdentity
  }

  function UpdateTail(pk: Field, cols: seq<Field>): string
  {
    Break(23) + "SET " + Join(",", Assignments(cols)) + Break(21) + "WHERE " + KeyMatch(pk)
  }

  function DeleteTail(pk: Field): string
  {
    Break(26) + "WHERE " + KeyMatch(pk)
  }

  /** The WHERE line of RemoveRecordById and GetRecord: the literal @Id,
      whatever the key is called. */
  function ByIdTail(pk: Field): string
  {
    Break(26) + "WHERE " + ToColumnString(pk) + " = @Id"
  }

  /** The CRUD operations, each with its own cache key. */
  datatype Operation = CreateRecord | UpdateRecord | RemoveRecord | RemoveRecordById | GetRecord

  function CacheKey(op: Operation): string
  {
    match op
    case CreateRecord => "CreateRecord"
    case UpdateRecord => "UpdateRecord"
    case RemoveRecord => "RemoveRecord"
    case RemoveRecordById => "RemoveRecordById"
    case GetRecord => "GetRecord"
  }

  /** Distinct operations never share a template. */
  lemma CacheKeyInjective(a: Operation, b: Operation)
    ensures CacheKey(a) == CacheKey(b) <==> a == b
  {
  }

  /** The template of op for entity e with table as its table text: CreateRecord
      never consults the primary key; the others fail when none resolves. */
  function TemplateAt(op: Operation, e: EntityType, table: string): (r: Result<string>)
    ensures r.Failure? <==> op != CreateRecord && ResolvePrimaryKey(DatabaseColumnsOf(e.fields)).None?
    ensures r.Failure? ==> r.error == Error.Format(MissingKeyMessage(e.name))
  {
    var cols := DatabaseColumnsOf(e.fields);
    if op == CreateRecord then Success(Statement("INSERT INTO ", table, InsertTail(InsertColumns(cols))))
    else match ResolvePrimaryKey(cols)
      case None => Failure(Error.Format(MissingKeyMessage(e.name)))
      case Some(pk) =>
        Success(match op
          case UpdateRecord => Statement("UPDATE ", table, UpdateTail(pk, UpdateColumns(cols)))
          case RemoveRecord => Statement("DELETE FROM ", table, DeleteTail(pk))
          case RemoveRecordById => Statement("DELETE FROM ", table, ByIdTail(pk))
          case _ => Statement("SELECT * FROM ", table, ByIdTail(pk)))
  }

  /** The table name a QueryHelper built with no arguments uses. */
  function TableNameOf(e: EntityType): string
  {
    NormalizeTableName(DefaultTableName(e))
  }

  /** The template as the builder lambda returns it: the unaliased Table()
      of a QueryHelper with schema index 0. */
  function Template(op: Operation, e: EntityType): Result<string>
  {
    TemplateAt(op, e, TableReference(TableNameOf(e), 0))
  }

  /** What GetQuery returns for op under a schema, cache or no cache: the
      template, trimmed, with the schema substituted. */
  function QueryFor(op: Operation, e: EntityType, schema: string): Result<string>
  {
    match Template(op, e)
    case Success(t) => StringFormat(Trim(t), [schema])
    case Failure(err) => Failure(err)
  }

  /* ---------------------------------------------------------------------
     The builder lambdas
     --------------------------------------------------------------------- */

  /** The CreateRecord lambda: a fresh QueryHelper's column list without its
      generated keys, listed as columns and as parameters in one order. */
  method BuildCreateRecord(e: EntityType) returns (r: Result<string>)
    requires WellFormed(e)
    ensures r == Template(CreateRecord, e)
  {
    var x := new QueryHelper(e, DefaultTableName(e), None, 0);
    var all := x.DatabaseColumns();
    var columns := InsertColumns(all);
    r := Success(Statement("INSERT INTO ", x.Table(), InsertTail(columns)));
  }

  /** The lambdas of UpdateRecord, RemoveRecord, RemoveRecordById and
      GetRecord: FormatException when the fresh QueryHelper resolves no primary
      key, else the statement keyed on it. */
  method BuildKeyed(op: Operation, e: EntityType) returns (r: Result<string>)
    requires WellFormed(e) && op != CreateRecord
    ensures r == Template(op, e)
  {
    var x := new QueryHelper(e, DefaultTableName(e), None, 0);
    var table := x.Table();
    assert table == TableReference(TableNameOf(e), 0);
    var pk := x.PrimaryKey();
    if pk.None? {
      return Failure(Error.Format(MissingKeyMessage(e.name)));
    }
    var key := pk.value;
    match op {
      case UpdateRecord =>
        var all := x.DatabaseColumns();
        r := Success(Statement("UPDATE ", table, UpdateTail(key, UpdateColumns(all))));
        UpdateRecordColumns(e);
      case RemoveRecord =>
        r := Success(Statement("DELETE FROM ", table, DeleteTail(key)));
        RemoveRecordTemplate(e);
      case RemoveRecordById =>
        r := Success(Statement("DELETE FROM ", table, ByIdTail(key)));
        RemoveRecordByIdTemplate(e);
      case GetRecord =>
        r := Success(Statement("SELECT * FROM ", table, ByIdTail(key)));
        GetRecordTemplate(e);
    }
  }

  /* ---------------------------------------------------------------------
     What the templates say
     --------------------------------------------------------------------- */

  /** CreateRecord inserts every database column that is not a generated key
      (explicit keys included), in declaration order, and names the matching
      parameters in the same order. */
  lemma CreateRecordColumns(e: EntityType)
    ensures var cols := InsertColumns(DatabaseColumnsOf(e.fields));
      && (forall f :: f in cols <==> f in e.fields && IsDatabaseColumn(f) && !IsGeneratedKey(f))
      && IsSubsequence(cols, DatabaseColumnsOf(e.fields))
      && Template(CreateRecord, e)
         == Success(Statement("INSERT INTO ", TableReference(TableNameOf(e), 0), InsertTail(cols)))
      && forall i :: 0 <= i < |cols| ==>
           ColumnStrings(cols)[i][1..|ColumnStrings(cols)[i]| - 1] == ParameterStrings(cols)[i][1..]
  {
    var cols := InsertColumns(DatabaseColumnsOf(e.fields));
    forall i | 0 <= i < |cols|
      ensures ColumnStrings(cols)[i][1..|ColumnStrings(cols)[i]| - 1] == ParameterStrings(cols)[i][1..]
    {
      ColumnAndParameterShareName(cols[i], cols[i]);
    }
  }

  /** UpdateRecord assigns every database column without a key flag, and
      matches the resolved key on its own parameter. */
  lemma UpdateRecordColumns(e: EntityType)
    requires ResolvePrimaryKey(DatabaseColumnsOf(e.fields)).Some?
    ensures var cols := UpdateColumns(DatabaseColumnsOf(e.fields));
      var pk := ResolvePrimaryKey(DatabaseColumnsOf(e.fields)).value;
      && (forall f :: f in cols <==> f in e.fields && IsDatabaseColumn(f) && !IsKey(f))
      && Template(UpdateRecord, e)
         == Success(Statement("UPDATE ", TableReference(TableNameOf(e), 0), UpdateTail(pk, cols)))
  {
  }

  /** A key found only by its name "id" carries no key flag, so UpdateRecord
      assigns it in SET as well as matching on it in WHERE. */
  lemma IdFallbackKeyIsAssigned(e: EntityType)
    requires ResolvePrimaryKey(DatabaseColumnsOf(e.fields)).Some?
    requires forall f :: f in e.fields ==> !IsKey(f)
    ensures ResolvePrimaryKey(DatabaseColumnsOf(e.fields)).value in UpdateColumns(DatabaseColumnsOf(e.fields))
    ensures IsNamedId(ResolvePrimaryKey(DatabaseColumnsOf(e.fields)).value)
  {
    var cols := DatabaseColumnsOf(e.fields);
    var pk := ResolvePrimaryKey(cols).value;
    var i :| 0 <= i < |cols| && cols[i] == pk && PrimaryKeyAt(cols, i);
    assert !IsKey(cols[i]);
  }

  /** RemoveRecordById and GetRecord match the key column against @Id, while
      RemoveRecord matches it against the key's own parameter. */
  lemma KeyedTemplatesWhereClause(e: EntityType)
    requires ResolvePrimaryKey(DatabaseColumnsOf(e.fields)).Some?
    ensures var pk := ResolvePrimaryKey(DatabaseColumnsOf(e.fields)).value;
      var table := TableReference(TableNameOf(e), 0);
      && Template(RemoveRecord, e) == Success(Statement("DELETE FROM ", table, DeleteTail(pk)))
      && Template(RemoveRecordById, e) == Success(Statement("DELETE FROM ", table, ByIdTail(pk)))
      && Template(GetRecord, e) == Success(Statement("SELECT * FROM ", table, ByIdTail(pk)))
  {
    RemoveRecordTemplate(e);
    RemoveRecordByIdTemplate(e);
    GetRecordTemplate(e);
  }

  lemma RemoveRecordTemplate(e: EntityType)
    requires ResolvePrimaryKey(DatabaseColumnsOf(e.fields)).Some?
    ensures Template(RemoveRecord, e)
      == Success(Statement("DELETE FROM ", TableReference(TableNameOf(e), 0),
                           DeleteTail(ResolvePrimaryKey(DatabaseColumnsOf(e.fields)).value)))
  {
  }

  lemma RemoveRecordByIdTemplate(e: EntityType)
    requires ResolvePrimaryKey(DatabaseColumnsOf(e.fields)).Some?
    ensures Template(RemoveRecordById, e)
      == Success(Statement("DELETE FROM ", TableReference(TableNameOf(e), 0),
                           ByIdTail(ResolvePrimaryKey(DatabaseColumnsOf(e.fields)).value)))
  {
  }

  lemma GetRecordTemplate(e: EntityType)
    requires ResolvePrimaryKey(DatabaseColumnsOf(e.fields)).Some?
    ensures Template(GetRecord, e)
      == Success(Statement("SELECT * FROM ", TableReference(TableNameOf(e), 0),
                           ByIdTail(ResolvePrimaryKey(DatabaseColumnsOf(e.fields)).value)))
  {
  }

  predicate EndsWith(s: string, t: string) {
    |t| <= |s| && s[|s| - |t|..] == t
  }

  lemma EndsWithAppend(a: string, t: string)
    ensures EndsWith(a + t, t)
  {
    assert (a + t)[|a + t| - |t|..] == t;
  }

  /** RemoveRecord's WHERE line ends on the key's own parameter; the by-id
      WHERE line ends on @Id whatever the key is called. */
  lemma WhereClauses(pk: Field)
    ensures EndsWith(DeleteTail(pk), " = " + ToParameterString(pk))
    ensures EndsWith(ByIdTail(pk), " = @Id")
  {
    assert DeleteTail(pk) == (Break(26) + "WHERE " + ToColumnString(pk)) + (" = " + ToParameterString(pk));
    EndsWithAppend(Break(26) + "WHERE " + ToColumnString(pk), " = " + ToParameterString(pk));
    EndsWithAppend(Break(26) + "WHERE " + ToColumnString(pk), " = @Id");
  }

  /* ---------------------------------------------------------------------
     Schema substitution
     --------------------------------------------------------------------- */

  /** A name that string.Format and Trim both leave alone. */
  predicate PlainName(s: string) {
    NoBraces(s) && forall i :: 0 <= i < |s| ==> !IsWhiteSpace(s[i])
  }

  /** Entity and property names as C# identifiers are, and a table name with no braces. */
  predicate PlainEntity(e: EntityType) {
    (forall f :: f in e.fields ==> PlainName(f.name)) && NoBraces(TableNameOf(e))
  }

  lemma NoBracesColumnStrings(cols: seq<Field>)
    requires forall f :: f in cols ==> PlainName(f.name)
    ensures forall i :: 0 <= i < |cols| ==> NoBraces(ColumnStrings(cols)[i]) && NoBraces(ParameterStrings(cols)[i])
    ensures forall i :: 0 <= i < |cols| ==> NoBraces(Assignments(cols)[i])
  {
    forall i | 0 <= i < |cols|
      ensures NoBraces(ColumnStrings(cols)[i]) && NoBraces(ParameterStrings(cols)[i]) && NoBraces(Assignments(cols)[i])
    {
      NoBracesKeyMatch(cols[i]);
    }
  }

  lemma NoBracesKeyMatch(p: Field)
    requires PlainName(p.name)
    ensures NoBraces(ToColumnString(p)) && NoBraces(ToParameterString(p)) && NoBraces(KeyMatch(p))
  {
    NoBracesAppend("[", p.name);
    NoBracesAppend("[" + p.name, "]");
    NoBracesAppend("@", p.name);
    NoBracesAppend(ToColumnString(p), " = ");
    NoBracesAppend(ToColumnString(p) + " = ", ToParameterString(p));
  }

  lemma {:induction false} NoBracesJoin(sep: string, parts: seq<string>)
    requires NoBraces(sep) && forall i :: 0 <= i < |parts| ==> NoBraces(parts[i])
    ensures NoBraces(Join(sep, parts))
  {
    if |parts| > 1 {
      NoBracesJoin(sep, parts[1..]);
      NoBracesAppend(parts[0], sep);
      NoBracesAppend(parts[0] + sep, Join(sep, parts[1..]));
    }
  }

  /** The last character of a + b, for a non-empty b. */
  lemma LastOfAppend(a: string, b: string)
    requires b != []
    ensures (a + b)[|a + b| - 1] == b[|b| - 1]
  {
  }

  /** The part of a template after the table reference: no braces, and a
      last character that is not white space. */
  predicate GoodTail(tail: string) {
    NoBraces(tail) && tail != [] && !IsWhiteSpace(tail[|tail| - 1])
  }

  lemma GoodTailAppend(a: string, b: string)
    requires NoBraces(a) && GoodTail(b)
    ensures GoodTail(a + b)
  {
    NoBracesAppend(a, b);
    LastOfAppend(a, b);
  }

  /** The fixed pieces of the INSERT statement hold no braces, and the
      statement ends on the ';' of its SCOPE_IDENTITY select. */
  lemma InsertLiterals()
    ensures NoBraces("(") && NoBraces(")") && NoBraces("VALUES") && NoBraces(");")
    ensures GoodTail(ScopeIdentity)
  {
    assert NoBraces(ScopeIdentity);
    assert ScopeIdentity[|ScopeIdentity| - 1] == ';';
  }

  /** The four statement keywords start on text and hold no braces. */
  predicate GoodVerb(verb: string) {
    verb != [] && !IsWhiteSpace(verb[0]) && NoBraces(verb)
  }

  lemma VerbFacts()
    ensures GoodVerb("INSERT INTO ") && GoodVerb("UPDATE ") && GoodVerb("DELETE FROM ") && GoodVerb("SELECT * FROM ")
  {
    assert NoBraces("INSERT INTO ");
    assert NoBraces("UPDATE ");
    assert NoBraces("DELETE FROM ");
    assert NoBraces("SELECT * FROM ");
  }

  lemma InsertTailIsGood(cols: seq<Field>)
    requires forall f :: f in cols ==> PlainName(f.name)
    ensures GoodTail(InsertTail(cols))
  {
    NoBracesColumnStrings(cols);
    NoBracesJoin(",", ColumnStrings(cols));
    NoBracesJoin(",", ParameterStrings(cols));
    var a := Join(",", ColumnStrings(cols));
    var b := Join(",", ParameterStrings(cols));
    BreakIsBlank(31);
    BreakIsBlank(25);
    BreakIsBlank(20);
    InsertLiterals();
    NoBracesAppend(Break(31), "(");
    NoBracesAppend(Break(31) + "(", a);
    NoBracesAppend(Break(31) + "(" + a, ")");
    NoBracesAppend(Break(31) + "(" + a + ")", Break(25));
    NoBracesAppend(Break(31) + "(" + a + ")" + Break(25), "VALUES");
    var p := Break(31) + "(" + a + ")" + Break(25) + "VALUES";
    NoBracesAppend(p, Break(31));
    NoBracesAppend(p + Break(31), "(");
    NoBracesAppend(p + Break(31) + "(", b);
    NoBracesAppend(p + Break(31) + "(" + b, ");");
    NoBracesAppend(p + Break(31) + "(" + b + ");", Break(20));
    GoodTailAppend(p + Break(31) + "(" + b + ");" + Break(20), ScopeIdentity);
  }

  lemma KeyMatchEndsPlain(pk: Field)
    requires PlainName(pk.name)
    ensures KeyMatch(pk) != [] && !IsWhiteSpace(KeyMatch(pk)[|KeyMatch(pk)| - 1])
  {
    LastOfAppend(ToColumnString(pk) + " = ", ToParameterString(pk));
    if pk.name != [] {
      LastOfAppend("@", pk.name);
    }
  }

  lemma UpdateTailIsGood(pk: Field, cols: seq<Field>)
    requires PlainName(pk.name) && forall f :: f in cols ==> PlainName(f.name)
    ensures GoodTail(UpdateTail(pk, cols))
  {
    NoBracesColumnStrings(cols);
    NoBracesJoin(",", Assignments(cols));
    NoBracesKeyMatch(pk);
    KeyMatchEndsPlain(pk);
    var a := Join(",", Assignments(cols));
    BreakIsBlank(23);
    BreakIsBlank(21);
    NoBracesAppend(Break(23), "SET ");
    NoBracesAppend(Break(23) + "SET ", a);
    NoBracesAppend(Break(23) + "SET " + a, Break(21));
    NoBracesAppend(Break(23) + "SET " + a + Break(21), "WHERE ");
    NoBracesAppend(Break(23) + "SET " + a + Break(21) + "WHERE ", KeyMatch(pk));
    LastOfAppend(Break(23) + "SET " + a + Break(21) + "WHERE ", KeyMatch(pk));
  }

  lemma DeleteTailIsGood(pk: Field)
    requires PlainName(pk.name)
    ensures GoodTail(DeleteTail(pk))
  {
    NoBracesKeyMatch(pk);
    KeyMatchEndsPlain(pk);
    BreakIsBlank(26);
    NoBracesAppend(Break(26), "WHERE ");
    NoBracesAppend(Break(26) + "WHERE ", KeyMatch(pk));
    LastOfAppend(Break(26) + "WHERE ", KeyMatch(pk));
  }

  lemma ByIdTailIsGood(pk: Field)
    requires PlainName(pk.name)
    ensures GoodTail(ByIdTail(pk))
  {
    NoBracesKeyMatch(pk);
    BreakIsBlank(26);
    NoBracesAppend(Break(26), "WHERE ");
    NoBracesAppend(Break(26) + "WHERE ", ToColumnString(pk));
    NoBracesAppend(Break(26) + "WHERE " + ToColumnString(pk), " = @Id");
    LastOfAppend(Break(26) + "WHERE " + ToColumnString(pk), " = @Id");
  }

  lemma FormatTableReferencePrefix(schema: string)
    ensures StringFormat("[{" + "0" + "}].[", [schema]) == Success("[" + schema + "].[")
  {
    assert NoBraces("[") && NoBraces("].[");
    FormatOneSlot("[", "].[", schema);
    assert "[{" + "0" + "}].[" == "[" + "{0}" + "].[";
  }

  /** The slot of a schema-0 table reference takes the schema. */
  lemma FormatTableReference(name: string, schema: string)
    requires NoBraces(name)
    ensures StringFormat(TableReference(name, 0), [schema]) == Success(SchemaTable(schema, name))
  {
    var p := "[{" + "0" + "}].[";
    FormatTableReferencePrefix(schema);
    FormatPlain(name, [schema]);
    FormatAppend(p, name, [schema]);
    FormatPlain("]", [schema]);
    FormatAppend(p + name, "]", [schema]);
  }

  /** Trim strips the leading line break and indentation of a statement
      whose keyword and last line start and end on text. */
  lemma TrimStatement(verb: string, table: string, tail: string)
    requires verb != [] && !IsWhiteSpace(verb[0]) && GoodTail(tail)
    ensures Trim(Statement(verb, table, tail)) == StatementBody(verb, table, tail)
  {
    var body := StatementBody(verb, table, tail);
    assert body[0] == verb[0];
    LastOfAppend(verb + table, tail);
    BreakIsBlank(20);
    assert Break(20) + body + [] == Break(20) + body;
    TrimPadded(Break(20), body, []);
  }

  /** The cached template of a statement is the statement without its
      leading line break, and the schema lands in the table reference. */
  lemma StatementQuery(verb: string, name: string, tail: string, schema: string)
    requires verb != [] && !IsWhiteSpace(verb[0]) && NoBraces(verb)
    requires NoBraces(name) && GoodTail(tail)
    ensures StringFormat(Trim(Statement(verb, TableReference(name, 0), tail)), [schema])
            == Success(StatementBody(verb, SchemaTable(schema, name), tail))
  {
    TrimStatement(verb, TableReference(name, 0), tail);
    FormatTableReference(name, schema);
    FormatPlainPrefix(verb, TableReference(name, 0), [schema]);
    FormatAppend(verb + TableReference(name, 0), tail, [schema]);
    FormatPlain(tail, [schema]);
  }

  /** Under names as C# declares them, the query for op is its template,
      trimmed, with the schema in the table reference. */
  lemma SchemaFilledIn(op: Operation, e: EntityType, schema: string)
    requires PlainEntity(e) && Template(op, e).Success?
    ensures QueryFor(op, e, schema) == Success(Trim(TemplateAt(op, e, SchemaTable(schema, TableNameOf(e))).value))
  {
    var name := TableNameOf(e);
    var schemaTable := SchemaTable(schema, name);
    var cols := DatabaseColumnsOf(e.fields);
    assert forall f :: f in cols ==> PlainName(f.name);
    var verb, tail;
    if op == CreateRecord {
      verb, tail := "INSERT INTO ", InsertTail(InsertColumns(cols));
      InsertTailIsGood(InsertColumns(cols));
    } else {
      var pk := ResolvePrimaryKey(cols).value;
      var i :| 0 <= i < |cols| && cols[i] == pk;
      assert PlainName(pk.name);
      match op
      case UpdateRecord =>
        verb, tail := "UPDATE ", UpdateTail(pk, UpdateColumns(cols));
        UpdateTailIsGood(pk, UpdateColumns(cols));
      case RemoveRecord =>
        verb, tail := "DELETE FROM ", DeleteTail(pk);
        DeleteTailIsGood(pk);
      case RemoveRecordById =>
        verb, tail := "DELETE FROM ", ByIdTail(pk);
        ByIdTailIsGood(pk);
      case GetRecord =>
        verb, tail := "SELECT * FROM ", ByIdTail(pk);
        ByIdTailIsGood(pk);
    }
    VerbFacts();
    assert GoodVerb(verb);
    assert Template(op, e) == Success(Statement(verb, TableReference(name, 0), tail));
    assert TemplateAt(op, e, schemaTable) == Success(Statement(verb, schemaTable, tail));
    StatementQuery(verb, name, tail, schema);
    TrimStatement(verb, schemaTable, tail);
  }

  /** A Customer entity: a generated key Id and two plain columns. */
  const CustomerId := Field("Id", None, true, false)
  const CustomerName := Field("Name", None, false, false)
  const CustomerEmail := Field("Email", None, false, false)

  function Customer(): EntityType
  {
    EntityType("Customer", "Shop.Customer", None, [CustomerId, CustomerName, CustomerEmail])
  }

  lemma CustomerTableName()
    ensures TableNameOf(Customer()) == "Customers"
  {
    var t := "Customers";
    assert IsTrimmed(t);
    assert !EqualsIgnoreCase(t[..6], ClientPrefix) by {
      assert ToUpperAscii(t[0]) != ToUpperAscii(ClientPrefix[0]);
    }
    NormalizeTrimmedName(t);
    assert "Customer" + "s" == t;
  }

  lemma CustomerDatabaseColumns()
    ensures DatabaseColumnsOf(Customer().fields) == Customer().fields
  {
    var fs := Customer().fields;
    assert fs[1..] == [CustomerName, CustomerEmail];
    assert fs[1..][1..] == [CustomerEmail];
    assert DatabaseColumnsOf([CustomerEmail]) == [CustomerEmail];
    assert DatabaseColumnsOf([CustomerName, CustomerEmail]) == [CustomerName, CustomerEmail];
  }

  lemma CustomerInsertColumns()
    ensures InsertColumns(Customer().fields) == [CustomerName, CustomerEmail]
  {
    var fs := Customer().fields;
    assert fs[1..] == [CustomerName, CustomerEmail];
    assert fs[1..][1..] == [CustomerEmail];
    assert InsertColumns([CustomerEmail]) == [CustomerEmail];
    assert InsertColumns([CustomerName, CustomerEmail]) == [CustomerName, CustomerEmail];
  }

  /** A word of characters from 'A' to 'z' has no braces and no white space. */
  lemma WordIsPlain(s: string)
    requires forall i :: 0 <= i < |s| ==> 'A' <= s[i] <= 'z'
    ensures PlainName(s)
  {
  }

  lemma CustomerIsPlain()
    ensures PlainEntity(Customer())
  {
    WordIsPlain("Id");
    WordIsPlain("Name");
    WordIsPlain("Email");
    WordIsPlain("Customers");
    CustomerTableName();
  }

  /** string.Join of two parts. */
  lemma JoinTwo(sep: string, a: string, b: string)
    ensures Join(sep, [a, b]) == a + sep + b
  {
    assert [a, b][1..] == [b];
  }

  lemma CustomerColumnList()
    ensures Join(",", ColumnStrings([CustomerName, CustomerEmail])) == "[Name],[Email]"
  {
    var cols := [CustomerName, CustomerEmail];
    assert ColumnStrings(cols) == [ToColumnString(CustomerName), ToColumnString(CustomerEmail)];
    JoinTwo(",", ToColumnString(CustomerName), ToColumnString(CustomerEmail));
  }

  lemma CustomerParameterList()
    ensures Join(",", ParameterStrings([CustomerName, CustomerEmail])) == "@Name,@Email"
  {
    var cols := [CustomerName, CustomerEmail];
    assert ParameterStrings(cols) == [ToParameterString(CustomerName), ToParameterString(CustomerEmail)];
    JoinTwo(",", ToParameterString(CustomerName), ToParameterString(CustomerEmail));
  }

  /** The executed CreateRecord text: the INSERT statement with the schema in
      the table reference and the leading line break trimmed. */
  lemma CreateRecordQueryText(e: EntityType, schema: string)
    requires PlainEntity(e)
    ensures QueryFor(CreateRecord, e, schema)
      == Success(StatementBody("INSERT INTO ", SchemaTable(schema, TableNameOf(e)),
                               InsertTail(InsertColumns(DatabaseColumnsOf(e.fields)))))
  {
    var cols := DatabaseColumnsOf(e.fields);
    assert forall f :: f in cols ==> PlainName(f.name);
    InsertTailIsGood(InsertColumns(cols));
    VerbFacts();
    StatementQuery("INSERT INTO ", TableNameOf(e), InsertTail(InsertColumns(cols)), schema);
  }

  /** End to end: CreateRecord for Customer under a schema (say "dbo")
      inserts into [dbo].[Customers] the columns Name and Email, in that
      order, with the parameters @Name and @Email, and leaves the generated
      key Id to the database. */
  lemma CreateRecordExample(schema: string)
    ensures QueryFor(CreateRecord, Customer(), schema)
      == Success("INSERT INTO " + SchemaTable(schema, "Customers") + InsertTail([CustomerName, CustomerEmail]))
    ensures Join(",", ColumnStrings([CustomerName, CustomerEmail])) == "[Name],[Email]"
    ensures Join(",", ParameterStrings([CustomerName, CustomerEmail])) == "@Name,@Email"
  {
    CustomerIsPlain();
    CustomerTableName();
    CustomerDatabaseColumns();
    CustomerInsertColumns();
    CreateRecordQueryText(Customer(), schema);
    CustomerColumnList();
    CustomerParameterList();
  }

  /* ---------------------------------------------------------------------
     GetPrimitiveList's element type
     --------------------------------------------------------------------- */

  /** A CLR type as IsDatabasePrimitiveType sees it: its full name, whether it
      is a value type, and Nullable.GetUnderlyingType of it. */
  datatype ClrType = ClrType(fullName: string, isValueType: bool, nullableUnderlying: Option<ClrType>)

  /** string, DateTime, decimal and byte[]. */
  predicate IsNamedPrimitive(t: ClrType) {
    t.fullName in {"System.String", "System.DateTime", "System.Decimal", "System.Byte[]"}
  }

  /** IsDatabasePrimitiveType: null is not; a value type or one of the named
      types is; anything else is exactly when its Nullable underlying type is. */
  predicate IsDatabasePrimitiveType(t: Option<ClrType>)
  {
    match t
    case None => false
    case Some(c) => c.isValueType || IsNamedPrimitive(c) || IsDatabasePrimitiveType(c.nullableUnderlying)
  }

  /** Only a Nullable<T>, itself a value type, has an underlying type. */
  predicate WellFormedClrType(t: ClrType) {
    t.nullableUnderlying.Some? ==> t.isValueType
  }

  /** The recursive case never decides anything for a real CLR type: a type
      with an underlying type is a value type and accepted before it. */
  lemma PrimitiveTypeRecursionIsRedundant(t: ClrType)
    requires WellFormedClrType(t)
    ensures IsDatabasePrimitiveType(Some(t)) <==> t.isValueType || IsNamedPrimitive(t)
  {
  }

  /** Accepted outright: a value type or one of the named types. */
  predicate AcceptedOutright(t: ClrType) {
    t.isValueType || IsNamedPrimitive(t)
  }

  /** t, Nullable.GetUnderlyingType(t), the underlying type of that, and so on. */
  function UnderlyingChain(t: ClrType): (r: seq<ClrType>)
    ensures r != [] && r[0] == t
  {
    [t] + match t.nullableUnderlying
          case None => []
          case Some(u) => UnderlyingChain(u)
  }

  /** The reference reading of the recursion: a type is a database primitive
      exactly when some type along its chain of underlying types is accepted
      outright. */
  lemma {:induction false} PrimitiveTypeAlongChain(t: ClrType)
    ensures IsDatabasePrimitiveType(Some(t)) <==>
      exists i :: 0 <= i < |UnderlyingChain(t)| && AcceptedOutright(UnderlyingChain(t)[i])
  {
    assert UnderlyingChain(t)[0] == t;
    match t.nullableUnderlying
    case None =>
      assert UnderlyingChain(t) == [t];
    case Some(u) =>
      PrimitiveTypeAlongChain(u);
      assert UnderlyingChain(t) == [t] + UnderlyingChain(u);
      if exists j :: 0 <= j < |UnderlyingChain(u)| && AcceptedOutright(UnderlyingChain(u)[j]) {
        var j :| 0 <= j < |UnderlyingChain(u)| && AcceptedOutright(UnderlyingChain(u)[j]);
        assert UnderlyingChain(t)[j + 1] == UnderlyingChain(u)[j];
      }
      if exists i :: 0 <= i < |UnderlyingChain(t)| && AcceptedOutright(UnderlyingChain(t)[i]) {
        var i :| 0 <= i < |UnderlyingChain(t)| && AcceptedOutright(UnderlyingChain(t)[i]);
        if i > 0 {
          assert UnderlyingChain(t)[i] == UnderlyingChain(u)[i - 1];
        }
      }
  }

  /** GetPrimitiveList's guard: ArgumentException naming the type before any
      query runs; otherwise the query goes to the database unchanged. */
  function GetPrimitiveList(t: ClrType, query: string): (r: Result<string>)
    ensures r.Success? <==> IsDatabasePrimitiveType(Some(t))
    ensures r.Success? ==> r.value == query
    ensures r.Failure? ==>
      r.error == Argument("Type " + t.fullName + " does not map to a database primitive type")
  {
    if !IsDatabasePrimitiveType(Some(t)) then
      Failure(Argument("Type " + t.fullName + " does not map to a database primitive type"))
    else
      Success(query)
  }

  /* ---------------------------------------------------------------------
     The repository
     --------------------------------------------------------------------- */

  /** Every template the cache holds under e's type name is the one the
      builder for that operation produces, trimmed. */
  ghost predicate CacheAgrees(m: map<string, string>, e: EntityType)
  {
    forall op: Operation :: TemplateKey(e.name, CacheKey(op)) in m ==>
      Template(op, e).Success? && m[TemplateKey(e.name, CacheKey(op))] == Trim(Template(op, e).value)
  }

  /** Storing op's own template keeps the cache in agreement. */
  lemma CacheAgreesAfterStore(m: map<string, string>, e: EntityType, op: Operation)
    requires CacheAgrees(m, e) && Template(op, e).Success?
    ensures CacheAgrees(m[TemplateKey(e.name, CacheKey(op)) := Trim(Template(op, e).value)], e)
  {
    var m' := m[TemplateKey(e.name, CacheKey(op)) := Trim(Template(op, e).value)];
    forall other: Operation | TemplateKey(e.name, CacheKey(other)) in m'
      ensures Template(other, e).Success? && m'[TemplateKey(e.name, CacheKey(other))] == Trim(Template(other, e).value)
    {
      if TemplateKey(e.name, CacheKey(other)) == TemplateKey(e.name, CacheKey(op)) {
        CacheKeyInjective(other, op);
      }
    }
  }

  /** What the shared cache hands e's repository for op: whatever template is
      stored under e's type name, whoever stored it, and otherwise e's own
      template, built now. */
  function Served(m: map<string, string>, op: Operation, e: EntityType, schema: string): Result<string>
  {
    var k := TemplateKey(e.name, CacheKey(op));
    if k in m then StringFormat(m[k], [schema]) else QueryFor(op, e, schema)
  }

  /** The store after one GetQuery under key k whose builder gives built: a
      present key leaves it as it was; otherwise a successful build is added,
      trimmed, under k, and a failed one adds nothing. No other entry changes. */
  function StoreAfter(m: map<string, string>, k: string, built: Result<string>): (m': map<string, string>)
    ensures forall j :: j in m ==> j in m' && m'[j] == m[j]
    ensures forall j :: j in m' && j != k ==> j in m
    ensures k in m' <==> k in m || built.Success?
  {
    if k in m then m
    else match built
      case Success(q) => m[k := Trim(q)]
      case Failure(_) => m
  }

  /** Asking again gives the same answer: whatever one Run leaves in the store
      serves the next Run for the same operation exactly what the first was
      served, the foreign template of a same-named type included. */
  lemma ServedIsStable(m: map<string, string>, op: Operation, e: EntityType, schema: string)
    ensures Served(StoreAfter(m, TemplateKey(e.name, CacheKey(op)), Template(op, e)), op, e, schema)
      == Served(m, op, e, schema)
    ensures StoreAfter(StoreAfter(m, TemplateKey(e.name, CacheKey(op)), Template(op, e)),
                       TemplateKey(e.name, CacheKey(op)), Template(op, e))
      == StoreAfter(m, TemplateKey(e.name, CacheKey(op)), Template(op, e))
  {
  }

  /** Keyed by Type.Name, the cache lets two entity types of one name share
      templates: once a's template for op is stored, b's repository is
      served a's query, and the cache agrees with b only if b would have
      built the same template. */
  lemma NameKeyShared(m: map<string, string>, op: Operation, a: EntityType, b: EntityType, schema: string)
    requires a.name == b.name && Template(op, a).Success?
    ensures var m' := m[TemplateKey(a.name, CacheKey(op)) := Trim(Template(op, a).value)];
      && Served(m', op, b, schema) == QueryFor(op, a, schema)
      && (CacheAgrees(m', b) ==> Template(op, b).Success? && Trim(Template(op, b).value) == Trim(Template(op, a).value))
  {
  }

  /** Customer's namesake from another namespace, mapped to the table Clients. */
  function BillingCustomer(): EntityType
  {
    EntityType("Customer", "Billing.Customer", Some("Clients"), Customer().fields)
  }

  lemma BillingCustomerIsPlain()
    ensures TableNameOf(BillingCustomer()) == "Clients"
    ensures PlainEntity(BillingCustomer())
  {
    var t := "Clients";
    assert IsTrimmed(t);
    assert !EqualsIgnoreCase(t[..6], ClientPrefix) by {
      assert ToUpperAscii(t[0]) != ToUpperAscii(ClientPrefix[0]);
    }
    NormalizeTrimmedName(t);
    WordIsPlain("Id");
    WordIsPlain("Name");
    WordIsPlain("Email");
    WordIsPlain(t);
  }

  /** The collision, as written: after Shop.Customer's repository has run
      CreateRecord, Billing.Customer's repository is handed the INSERT into
      [schema].[Customers] instead of its own INSERT into [schema].[Clients],
      and the cache no longer agrees with Billing.Customer. */
  lemma SameNameCollision(m: map<string, string>, schema: string)
    ensures var m' := m[TemplateKey("Customer", CacheKey(CreateRecord)) := Trim(Template(CreateRecord, Customer()).value)];
      && Served(m', CreateRecord, BillingCustomer(), schema) == QueryFor(CreateRecord, Customer(), schema)
      && Served(m', CreateRecord, BillingCustomer(), schema) != QueryFor(CreateRecord, BillingCustomer(), schema)
      && !CacheAgrees(m', BillingCustomer())
  {
    var a, b := Customer(), BillingCustomer();
    NameKeyShared(m, CreateRecord, a, b, schema);
    CustomerIsPlain();
    CustomerTableName();
    BillingCustomerIsPlain();
    CreateRecordQueryText(a, schema);
    CreateRecordQueryText(b, schema);
    var tail := InsertTail(InsertColumns(DatabaseColumnsOf(a.fields)));
    assert |StatementBody("INSERT INTO ", SchemaTable(schema, "Customers"), tail)|
        != |StatementBody("INSERT INTO ", SchemaTable(schema, "Clients"), tail)|;
  }

  /** The evidently intended key: the entity's full name, which differs
      between distinct types, then the operation. */
  function IntendedKey(e: EntityType, op: Operation): string
  {
    TemplateKey(e.fullName, CacheKey(op))
  }

  /** CacheAgrees under the intended keys. */
  ghost predicate CacheAgreesByFullName(m: map<string, string>, e: EntityType)
  {
    forall op: Operation :: IntendedKey(e, op) in m ==>
      Template(op, e).Success? && m[IntendedKey(e, op)] == Trim(Template(op, e).value)
  }

  lemma CacheKeyHasNoDot(op: Operation)
    ensures NoDot(CacheKey(op))
  {
    match op
    case CreateRecord => assert NoDot("CreateRecord");
    case UpdateRecord => assert NoDot("UpdateRecord");
    case RemoveRecord => assert NoDot("RemoveRecord");
    case RemoveRecordById => assert NoDot("RemoveRecordById");
    case GetRecord => assert NoDot("GetRecord");
  }

  /** Keyed by full name, storing a's template for op keeps the cache in
      agreement with a itself and with every type of another full name. */
  lemma FullNameKeysIsolateTypes(m: map<string, string>, op: Operation, a: EntityType, b: EntityType)
    requires Template(op, a).Success? && CacheAgreesByFullName(m, b)
    requires a.fullName != b.fullName || a == b
    ensures CacheAgreesByFullName(m[IntendedKey(a, op) := Trim(Template(op, a).value)], b)
  {
    var m' := m[IntendedKey(a, op) := Trim(Template(op, a).value)];
    forall other: Operation | IntendedKey(b, other) in m'
      ensures Template(other, b).Success? && m'[IntendedKey(b, other)] == Trim(Template(other, b).value)
    {
      if IntendedKey(b, other) == IntendedKey(a, op) {
        CacheKeyHasNoDot(other);
        CacheKeyHasNoDot(op);
        TemplateKeyInjectiveByKey(b.fullName, CacheKey(other), a.fullName, CacheKey(op));
        CacheKeyInjective(other, op);
      }
    }
  }

  class SqlRepository {
    const entity: EntityType
    const queryService: SqlQueryCacheService

    /** The cache is shared with every other repository; nothing is assumed
        about what they have stored in it. */
    ghost predicate Valid()
      reads this, queryService
    {
      WellFormed(entity) && queryService.Valid()
    }

    constructor (entity: EntityType, queryService: SqlQueryCacheService)
      requires WellFormed(entity) && queryService.Valid()
      ensures Valid() && this.entity == entity && this.queryService == queryService
    {
      this.entity := entity;
      this.queryService := queryService;
    }

    /** GetQuery(key, schema, builder): the cache's GetQuery under this entity's type name. */
    method GetQuery(key: string, schema: string, queryBuilder: () -> Result<string>) returns (r: Result<string>)
      requires queryService.Valid()
      modifies queryService
      ensures queryService.Valid()
      ensures var k := TemplateKey(entity.name, key);
        if k in old(queryService.queryTemplates) then
          r == StringFormat(old(queryService.queryTemplates)[k], [schema])
          && queryService.queryTemplates == old(queryService.queryTemplates)
        else
          match queryBuilder()
          case Success(q) =>
            r == StringFormat(Trim(q), [schema])
            && queryService.queryTemplates == old(queryService.queryTemplates)[k := Trim(q)]
          case Failure(e) => r == Failure(e) && queryService.queryTemplates == old(queryService.queryTemplates)
      ensures var k := TemplateKey(entity.name, key);
        queryService.builds
        == if k in old(queryService.queryTemplates) then old(queryService.builds) else old(queryService.builds) + [k]
    {
      r := queryService.GetQuery(entity.name, key, schema, queryBuilder);
    }

    /** One CRUD query: whatever the cache holds under this entity's type
      name, else the fresh template, which then stays cached. When the cache
      agrees with this entity, the answer is the entity's own query and the
      cache goes on agreeing. */
    method Run(op: Operation, schema: string) returns (query: Result<string>)
      requires Valid()
      modifies queryService
      ensures Valid()
      ensures query == Served(old(queryService.queryTemplates), op, entity, schema)
      ensures queryService.queryTemplates
        == StoreAfter(old(queryService.queryTemplates), TemplateKey(entity.name, CacheKey(op)), Template(op, entity))
      ensures CacheAgrees(old(queryService.queryTemplates), entity) ==>
        query == QueryFor(op, entity, schema) && CacheAgrees(queryService.queryTemplates, entity)
      ensures Template(op, entity).Success? ==> TemplateKey(entity.name, CacheKey(op)) in queryService.queryTemplates
      ensures var k := TemplateKey(entity.name, CacheKey(op));
        queryService.builds
        == if k in old(queryService.queryTemplates) then old(queryService.builds) else old(queryService.builds) + [k]
    {
      var e := entity;
      query := GetQuery(CacheKey(op), schema, () => Template(op, e));
      if Template(op, e).Success? && CacheAgrees(old(queryService.queryTemplates), e) {
        CacheAgreesAfterStore(old(queryService.queryTemplates), e, op);
      }
    }

    /** Run as evidently intended: the same cache, keyed by the entity's full
      name. The entity gets its own query whenever the cache agrees with it,
      and no other type's agreement is disturbed. */
    method RunByFullName(op: Operation, schema: string) returns (query: Result<string>)
      requires Valid()
      modifies queryService
      ensures Valid()
      ensures queryService.queryTemplates
        == StoreAfter(old(queryService.queryTemplates), IntendedKey(entity, op), Template(op, entity))
      ensures CacheAgreesByFullName(old(queryService.queryTemplates), entity) ==>
        query == QueryFor(op, entity, schema) && CacheAgreesByFullName(queryService.queryTemplates, entity)
      ensures forall other: EntityType ::
        other.fullName != entity.fullName && CacheAgreesByFullName(old(queryService.queryTemplates), other)
        ==> CacheAgreesByFullName(queryService.queryTemplates, other)
    {
      var e := entity;
      query := queryService.GetQuery(e.fullName, CacheKey(op), schema, () => Template(op, e));
      if Template(op, e).Success? && IntendedKey(e, op) !in old(queryService.queryTemplates) {
        if CacheAgreesByFullName(old(queryService.queryTemplates), e) {
          FullNameKeysIsolateTypes(old(queryService.queryTemplates), op, e, e);
        }
        forall other: EntityType | other.fullName != e.fullName && CacheAgreesByFullName(old(queryService.queryTemplates), other)
          ensures CacheAgreesByFullName(queryService.queryTemplates, other)
        {
          FullNameKeysIsolateTypes(old(queryService.queryTemplates), op, e, other);
        }
      }
    }

    method CreateRecordQuery(schema: string) returns (query: Result<string>)
      requires Valid()
      modifies queryService
      ensures Valid() && query == Served(old(queryService.queryTemplates), CreateRecord, entity, schema)
      ensures queryService.queryTemplates
        == StoreAfter(old(queryService.queryTemplates), TemplateKey(entity.name, CacheKey(CreateRecord)), Template(CreateRecord, entity))
      ensures CacheAgrees(old(queryService.queryTemplates), entity) ==>
        query == QueryFor(CreateRecord, entity, schema) && CacheAgrees(queryService.queryTemplates, entity)
    {
      query := Run(CreateRecord, schema);
    }

    method UpdateRecordQuery(schema: string) returns (query: Result<string>)
      requires Valid()
      modifies queryService
      ensures Valid() && query == Served(old(queryService.queryTemplates), UpdateRecord, entity, schema)
      ensures queryService.queryTemplates
        == StoreAfter(old(queryService.queryTemplates), TemplateKey(entity.name, CacheKey(UpdateRecord)), Template(UpdateRecord, entity))
      ensures CacheAgrees(old(queryService.queryTemplates), entity) ==>
        query == QueryFor(UpdateRecord, entity, schema) && CacheAgrees(queryService.queryTemplates, entity)
    {
      query := Run(UpdateRecord, schema);
    }

    method RemoveRecordQuery(schema: string) returns (query: Result<string>)
      requires Valid()
      modifies queryService
      ensures Valid() && query == Served(old(queryService.queryTemplates), RemoveRecord, entity, schema)
      ensures queryService.queryTemplates
        == StoreAfter(old(queryService.queryTemplates), TemplateKey(entity.name, CacheKey(RemoveRecord)), Template(RemoveRecord, entity))
      ensures CacheAgrees(old(queryService.queryTemplates), entity) ==>
        query == QueryFor(RemoveRecord, entity, schema) && CacheAgrees(queryService.queryTemplates, entity)
    {
      query := Run(RemoveRecord, schema);
    }

    method RemoveRecordByIdQuery(schema: string) returns (query: Result<string>)
      requires Valid()
      modifies queryService
      ensures Valid() && query == Served(old(queryService.queryTemplates), RemoveRecordById, entity, schema)
      ensures queryService.queryTemplates
        == StoreAfter(old(queryService.queryTemplates), TemplateKey(entity.name, CacheKey(RemoveRecordById)), Template(RemoveRecordById, entity))
      ensures CacheAgrees(old(queryService.queryTemplates), entity) ==>
        query == QueryFor(RemoveRecordById, entity, schema) && CacheAgrees(queryService.queryTemplates, entity)
    {
      query := Run(RemoveRecordById, schema);
    }

    method GetRecordQuery(schema: string) returns (query: Result<string>)
      requires Valid()
      modifies queryService
      ensures Valid() && query == Served(old(queryService.queryTemplates), GetRecord, entity, schema)
      ensures queryService.queryTemplates
        == StoreAfter(old(queryService.queryTemplates), TemplateKey(entity.name, CacheKey(GetRecord)), Template(GetRecord, entity))
      ensures CacheAgrees(old(queryService.queryTemplates), entity) ==>
        query == QueryFor(GetRecord, entity, schema) && CacheAgrees(queryService.queryTemplates, entity)
    {
      query := Run(GetRecord, schema);
    }
  }
}
