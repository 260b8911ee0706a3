/** QueryHelper<TEntity>: SQL fragments for one entity class. The table
    reference keeps the schema as a positional slot ({0} or {1}) for the
    template cache to fill in later. */
module QueryHelpers {
  import opened Wrappers
  import opened Text
  import opened Entities
  import opened SqlOperators

  const SchemaIndexMessage := "Schema index must be either 0 or 1"
  const NotColumnMessage := "Property is not a database column"

  /** The prefix that marks a client table; the regex ^Xlient_* strips it. */
  const ClientPrefix := "Xlient"

  /** The line break and indentation between a joined table and its ON clause. */
  const JoinBreak := "\n                    "

  /* ---------------------------------------------------------------------
     Sequences of fields
     --------------------------------------------------------------------- */

  /** a keeps some of the entries of b, in the order b has them. */
  predicate IsSubsequence(a: seq<Field>, b: seq<Field>)
    decreases |b|
  {
    a == [] || (b != [] && ((a[0] == b[0] && IsSubsequence(a[1..], b[1..])) || IsSubsequence(a, b[1..])))
  }

  /** The DatabaseColumns list as first built: the properties, in declaration
      order, that are database columns. */
  function DatabaseColumnsOf(fields: seq<Field>): (r: seq<Field>)
    ensures forall f :: f in r <==> f in fields && IsDatabaseColumn(f)
    ensures IsSubsequence(r, fields)
    ensures UniqueNames(fields) ==> UniqueNames(r)
  {
    if fields == [] then []
    else
      var rest := DatabaseColumnsOf(fields[1..]);
      UniqueNamesTail(fields);
      if IsDatabaseColumn(fields[0]) then UniqueNamesCons(fields, rest); [fields[0]] + rest else rest
  }

  /** The columns that survive SelectAllExcept(names): those whose name no
      exclusion carries, in their original order. */
  function Without(cols: seq<Field>, names: seq<Option<string>>): (r: seq<Field>)
    ensures forall f :: f in r <==> f in cols && Some(f.name) !in names
    ensures IsSubsequence(r, cols)
    ensures UniqueNames(cols) ==> UniqueNames(r)
  {
    if cols == [] then []
    else
      var rest := Without(cols[1..], names);
      UniqueNamesTail(cols);
      if Some(cols[0].name) !in names then UniqueNamesCons(cols, rest); [cols[0]] + rest else rest
  }

  lemma UniqueNamesTail(s: seq<Field>)
    requires s != []
    ensures UniqueNames(s) ==> UniqueNames(s[1..])
  {
    if UniqueNames(s) {
      forall i, j | 0 <= i < j < |s[1..]| ensures s[1..][i].name != s[1..][j].name {
        assert s[1..][i] == s[i + 1] && s[1..][j] == s[j + 1];
      }
    }
  }

  /** Putting the head of a list without repeated names in front of entries
      taken from its tail repeats no name either. */
  lemma UniqueNamesCons(whole: seq<Field>, rest: seq<Field>)
    requires whole != [] && forall f :: f in rest ==> f in whole[1..]
    ensures UniqueNames(whole) && UniqueNames(rest) ==> UniqueNames([whole[0]] + rest)
  {
    if UniqueNames(whole) && UniqueNames(rest) {
      var s := [whole[0]] + rest;
      forall i, j | 0 <= i < j < |s| ensures s[i].name != s[j].name {
        if i == 0 {
          assert s[j] == rest[j - 1] && s[j] in whole[1..];
          var k :| 0 <= k < |whole[1..]| && whole[1..][k] == s[j];
          assert whole[k + 1] == s[j];
        } else {
          assert s[i] == rest[i - 1] && s[j] == rest[j - 1];
        }
      }
    }
  }

  /** Removing the columns named by a and then those named by b is removing
      those named by either: SelectAllExcept's removals accumulate. */
  lemma {:induction false} WithoutAccumulates(cols: seq<Field>, a: seq<Option<string>>, b: seq<Option<string>>)
    ensures Without(Without(cols, a), b) == Without(cols, a + b)
  {
    if cols != [] {
      WithoutAccumulates(cols[1..], a, b);
      var c := cols[0];
      assert Some(c.name) in a + b <==> Some(c.name) in a || Some(c.name) in b;
      if Some(c.name) !in a {
        assert Without(cols, a)[1..] == Without(cols[1..], a);
      }
    }
  }

  lemma {:induction false} WithoutNothing(cols: seq<Field>)
    ensures Without(cols, []) == cols
  {
    if cols != [] {
      WithoutNothing(cols[1..]);
    }
  }

  /** The entries of s not in removed, in order. */
  function Keep(s: seq<Field>, removed: seq<Field>): (r: seq<Field>)
    ensures forall f :: f in r <==> f in s && f !in removed
  {
    if s == [] then []
    else if s[0] in removed then Keep(s[1..], removed)
    else [s[0]] + Keep(s[1..], removed)
  }

  /** List<T>.Remove(x): drops the first entry equal to x, if any. */
  function RemoveFirst(s: seq<Field>, x: Field): seq<Field>
  {
    if s == [] then []
    else if s[0] == x then s[1..]
    else [s[0]] + RemoveFirst(s[1..], x)
  }

  /** On a list without repeats, removing x once more is keeping what is neither removed nor x. */
  lemma {:induction false} RemoveFirstFromKept(s: seq<Field>, removed: seq<Field>, x: Field)
    requires UniqueNames(s)
    ensures RemoveFirst(Keep(s, removed), x) == Keep(s, removed + [x])
  {
    if s != [] {
      UniqueNamesTail(s);
      RemoveFirstFromKept(s[1..], removed, x);
      if s[0] !in removed && s[0] == x {
        assert x !in s[1..] by {
          forall k | 0 <= k < |s[1..]| ensures s[1..][k] != x {
            assert s[1..][k] == s[k + 1];
          }
        }
        KeepWithoutAbsent(s[1..], removed, x);
      }
    }
  }

  /** One pass of SelectAllExcept's second loop. */
  lemma KeepStep(s: seq<Field>, removed: seq<Field>, j: nat)
    requires UniqueNames(s) && j < |removed|
    ensures RemoveFirst(Keep(s, removed[..j]), removed[j]) == Keep(s, removed[..j + 1])
  {
    RemoveFirstFromKept(s, removed[..j], removed[j]);
    assert removed[..j + 1] == removed[..j] + [removed[j]];
  }

  lemma {:induction false} KeepNothing(s: seq<Field>)
    ensures Keep(s, []) == s
  {
    if s != [] {
      KeepNothing(s[1..]);
    }
  }

  lemma {:induction false} KeepWithoutAbsent(s: seq<Field>, removed: seq<Field>, x: Field)
    requires x !in s
    ensures Keep(s, removed) == Keep(s, removed + [x])
  {
    if s != [] {
      KeepWithoutAbsent(s[1..], removed, x);
    }
  }

  /** Keeping the entries outside removed, when removed holds exactly the entries the names exclude. */
  lemma {:induction false} KeepIsWithout(s: seq<Field>, removed: seq<Field>, names: seq<Option<string>>)
    requires forall f :: f in s ==> (f in removed <==> Some(f.name) in names)
    ensures Keep(s, removed) == Without(s, names)
  {
    if s != [] {
      KeepIsWithout(s[1..], removed, names);
    }
  }

  /** Index of the first entry satisfying p (Enumerable.FirstOrDefault). */
  function FirstIndexWhere(s: seq<Field>, p: Field -> bool): (r: Option<nat>)
    ensures r.Some? ==> r.value < |s| && p(s[r.value]) && forall j :: 0 <= j < r.value ==> !p(s[j])
    ensures r.None? ==> forall j :: 0 <= j < |s| ==> !p(s[j])
  {
    if s == [] then None
    else if p(s[0]) then Some(0)
    else match FirstIndexWhere(s[1..], p)
      case None => None
      case Some(i) => Some(i + 1)
  }

  /** A property named "id" in any letter case. */
  predicate IsNamedId(f: Field) {
    EqualsIgnoreCase(f.name, "id")
  }

  /** Position i holds the primary key: the first key-flagged column, or,
      when no column is key-flagged, the first column named "id". */
  predicate PrimaryKeyAt(cols: seq<Field>, i: nat)
    requires i < |cols|
  {
    || (IsKey(cols[i]) && forall j :: 0 <= j < i ==> !IsKey(cols[j]))
    || (&& (forall j :: 0 <= j < |cols| ==> !IsKey(cols[j]))
        && IsNamedId(cols[i]) && forall j :: 0 <= j < i ==> !IsNamedId(cols[j]))
  }

  /** The primary key as QueryHelper.PrimaryKey resolves it from a column list. */
  function ResolvePrimaryKey(cols: seq<Field>): (r: Option<Field>)
    ensures r.Some? ==> exists i :: 0 <= i < |cols| && cols[i] == r.value && PrimaryKeyAt(cols, i)
    ensures r.None? <==> forall j :: 0 <= j < |cols| ==> !IsKey(cols[j]) && !IsNamedId(cols[j])
  {
    match FirstIndexWhere(cols, IsKey)
    case Some(i) => Some(cols[i])
    case None =>
      match FirstIndexWhere(cols, IsNamedId)
      case Some(i) => Some(cols[i])
      case None => None
  }

  /** Resolution is determined by the reference definition: whatever position
      holds the primary key, that column is what resolves. */
  lemma ResolvePrimaryKeyAt(cols: seq<Field>, i: nat)
    requires i < |cols| && PrimaryKeyAt(cols, i)
    ensures ResolvePrimaryKey(cols) == Some(cols[i])
  {
    var k := FirstIndexWhere(cols, IsKey);
    if k.Some? {
      assert IsKey(cols[i]);
      assert !(k.value < i) && !(i < k.value);
    } else {
      var n := FirstIndexWhere(cols, IsNamedId);
      assert n.Some?;
      assert !(n.value < i) && !(i < n.value);
    }
  }

  /* ---------------------------------------------------------------------
     Table names and the table reference
     --------------------------------------------------------------------- */

  /** The [Table] attribute's name, else the type name with "s" appended. */
  function DefaultTableName(e: EntityType): string
  {
    match e.tableAttribute
    case Some(n) => n
    case None => e.name + "s"
  }

  /** The underscores at the front of s go. */
  function DropLeadingUnderscores(s: string): string
  {
    if s != [] && s[0] == '_' then DropLeadingUnderscores(s[1..]) else s
  }

  /** NormalizeTableName: Trim, then Regex.Replace(name, "^Xlient_*", "",
      IgnoreCase). The pattern is anchored, so at most one prefix goes. */
  function NormalizeTableName(tableName: string): (r: string)
    ensures var t := Trim(tableName);
      if StartsWithIgnoreCase(t, ClientPrefix) then
        |r| <= |t| - |ClientPrefix| && r == t[|t| - |r|..]
        && (forall i :: |ClientPrefix| <= i < |t| - |r| ==> t[i] == '_')
        && (r == [] || r[0] != '_')
      else
        r == t
  {
    var t := Trim(tableName);
    if StartsWithIgnoreCase(t, ClientPrefix) then
      DropAfterPrefix(t, |ClientPrefix|);
      DropLeadingUnderscores(t[|ClientPrefix|..])
    else
      t
  }

  /** Dropping the underscores after the first k characters of t leaves a
      suffix of t, and what went between position k and it was all '_'. */
  lemma {:induction false} DropAfterPrefix(t: string, k: nat)
    requires k <= |t|
    ensures var r := DropLeadingUnderscores(t[k..]);
      && |r| <= |t| - k && r == t[|t| - |r|..]
      && (forall i :: k <= i < |t| - |r| ==> t[i] == '_')
      && (r == [] || r[0] != '_')
    decreases |t| - k
  {
    if k < |t| && t[k] == '_' {
      assert t[k..][1..] == t[k + 1..];
      DropAfterPrefix(t, k + 1);
    }
  }

  /** The names NormalizeTableName leaves alone are exactly the trimmed names
      that do not start with the client prefix. */
  lemma NormalizeTableNameFixedPoints(n: string)
    ensures NormalizeTableName(n) == n <==> IsTrimmed(n) && !StartsWithIgnoreCase(n, ClientPrefix)
  {
    TrimShortens(n);
    if IsTrimmed(n) {
      TrimOfTrimmed(n);
    }
  }

  /** On a name with nothing to trim, only the prefix strip is left. */
  lemma NormalizeTrimmedName(t: string)
    requires IsTrimmed(t)
    ensures NormalizeTableName(t)
            == if StartsWithIgnoreCase(t, ClientPrefix) then DropLeadingUnderscores(t[|ClientPrefix|..]) else t
  {
    TrimOfTrimmed(t);
  }

  lemma ClientNameFacts()
    ensures IsTrimmed("Xlient_Customers") && StartsWithIgnoreCase("Xlient_Customers", ClientPrefix)
    ensures "Xlient_Customers"[|ClientPrefix|..] == "_Customers"
    ensures DropLeadingUnderscores("_Customers") == "Customers"
  {
    assert "Xlient_Customers"[..6] == ClientPrefix;
    assert "_Customers"[1..] == "Customers";
  }

  lemma NormalizeTableNameStripsPrefix()
    ensures NormalizeTableName("Xlient_Customers") == "Customers"
  {
    ClientNameFacts();
    NormalizeTrimmedName("Xlient_Customers");
  }

  lemma MixedCaseNameFacts()
    ensures IsTrimmed("xLIENT__Orders") && StartsWithIgnoreCase("xLIENT__Orders", ClientPrefix)
    ensures "xLIENT__Orders"[|ClientPrefix|..] == "__Orders"
    ensures DropLeadingUnderscores("__Orders") == "Orders"
  {
    var p := "xLIENT__Orders"[..6];
    assert p == "xLIENT";
    forall i | 0 <= i < 6 ensures ToUpperAscii(p[i]) == ToUpperAscii(ClientPrefix[i]) {
      if i == 0 { assert p[i] == 'x' && ClientPrefix[i] == 'X'; }
      else if i == 1 { assert p[i] == 'L' && ClientPrefix[i] == 'l'; }
      else if i == 2 { assert p[i] == 'I' && ClientPrefix[i] == 'i'; }
      else if i == 3 { assert p[i] == 'E' && ClientPrefix[i] == 'e'; }
      else if i == 4 { assert p[i] == 'N' && ClientPrefix[i] == 'n'; }
      else { assert p[i] == 'T' && ClientPrefix[i] == 't'; }
    }
    assert "__Orders"[1..] == "_Orders";
    assert "_Orders"[1..] == "Orders";
  }

  lemma NormalizeTableNameIgnoresCase()
    ensures NormalizeTableName("xLIENT__Orders") == "Orders"
  {
    MixedCaseNameFacts();
    NormalizeTrimmedName("xLIENT__Orders");
  }

  lemma NormalizeTableNameKeepsPlainNames()
    ensures NormalizeTableName("  Customers ") == "Customers"
  {
    TrimPadded("  ", "Customers", " ");
    assert "  " + "Customers" + " " == "  Customers ";
    var t := "Customers";
    assert !EqualsIgnoreCase(t[..6], ClientPrefix) by {
      assert ToUpperAscii(t[0]) != ToUpperAscii(ClientPrefix[0]);
    }
  }

  /** The strip is not idempotent: a doubled prefix loses only its first copy. */
  lemma DoubledPrefixFacts()
    ensures IsTrimmed("Xlient_Xlient_A") && StartsWithIgnoreCase("Xlient_Xlient_A", ClientPrefix)
    ensures "Xlient_Xlient_A"[|ClientPrefix|..] == "_Xlient_A"
    ensures DropLeadingUnderscores("_Xlient_A") == "Xlient_A"
    ensures IsTrimmed("Xlient_A") && StartsWithIgnoreCase("Xlient_A", ClientPrefix)
    ensures "Xlient_A"[|ClientPrefix|..] == "_A"
    ensures DropLeadingUnderscores("_A") == "A"
  {
    assert "Xlient_Xlient_A"[..6] == ClientPrefix;
    assert "_Xlient_A"[1..] == "Xlient_A";
    assert "Xlient_A"[..6] == ClientPrefix;
    assert "_A"[1..] == "A";
  }

  /** The strip is not idempotent: a doubled prefix loses only its first copy. */
  lemma NormalizeTableNameNotIdempotent()
    ensures NormalizeTableName("Xlient_Xlient_A") == "Xlient_A"
    ensures NormalizeTableName(NormalizeTableName("Xlient_Xlient_A")) == "A"
  {
    DoubledPrefixFacts();
    NormalizeTrimmedName("Xlient_Xlient_A");
    NormalizeTrimmedName("Xlient_A");
  }

  /** _Table: "[{" + schemaIndex + "}].[" + TableName + "]". */
  function TableReference(tableName: string, schemaIndex: int): string
    requires 0 <= schemaIndex <= 1
  {
    "[{" + (if schemaIndex == 0 then "0" else "1") + "}].[" + tableName + "]"
  }

  /* ---------------------------------------------------------------------
     LIKE search terms
     --------------------------------------------------------------------- */

  /** What the three Replace calls of EscapeForLikeQuery make of one character:
      the bracket the first two insert is rewritten by the third. */
  function EscapedChar(c: char): string
  {
    if c == '_' then "[[]_]"
    else if c == '%' then "[[]%]"
    else if c == '[' then "[[]"
    else [c]
  }

  /** Each character escaped on its own, in order. */
  function EscapeEachChar(s: string): string
  {
    if s == [] then [] else EscapedChar(s[0]) + EscapeEachChar(s[1..])
  }

  /** The chain .Replace("_", "[_]").Replace("%", "[%]").Replace("[", "[[]"). */
  function ReplaceChain(s: string): string
  {
    ReplaceChar(ReplaceChar(ReplaceChar(s, '_', "[_]"), '%', "[%]"), '[', "[[]")
  }

  lemma ReplaceChainAppend(a: string, b: string)
    ensures ReplaceChain(a + b) == ReplaceChain(a) + ReplaceChain(b)
  {
    ReplaceCharAppend(a, b, '_', "[_]");
    var a1, b1 := ReplaceChar(a, '_', "[_]"), ReplaceChar(b, '_', "[_]");
    ReplaceCharAppend(a1, b1, '%', "[%]");
    ReplaceCharAppend(ReplaceChar(a1, '%', "[%]"), ReplaceChar(b1, '%', "[%]"), '[', "[[]");
  }

  /** The third Replace rewrites the '[' the first two inserted. */
  lemma ReplaceChainOneChar(c: char)
    ensures ReplaceChain([c]) == EscapedChar(c)
  {
    assert [c][1..] == [];
    if c == '_' {
      assert ReplaceChar([c], '_', "[_]") == "[_]";
      assert "[_]"[1..] == "_]" && "_]"[1..] == "]" && "]"[1..] == [];
      assert ReplaceChar("[_]", '%', "[%]") == "[_]";
      assert ReplaceChar("[_]", '[', "[[]") == "[[]_]";
    } else if c == '%' {
      assert ReplaceChar([c], '_', "[_]") == "%";
      assert ReplaceChar("%", '%', "[%]") == "[%]";
      assert "[%]"[1..] == "%]" && "%]"[1..] == "]" && "]"[1..] == [];
      assert ReplaceChar("[%]", '[', "[[]") == "[[]%]";
    } else {
      assert ReplaceChar([c], '_', "[_]") == [c];
      assert ReplaceChar([c], '%', "[%]") == [c];
    }
  }

  lemma {:induction false} ReplaceChainPerChar(s: string)
    ensures ReplaceChain(s) == EscapeEachChar(s)
  {
    if s != [] {
      assert s == [s[0]] + s[1..];
      ReplaceChainAppend([s[0]], s[1..]);
      ReplaceChainOneChar(s[0]);
      ReplaceChainPerChar(s[1..]);
    }
  }

  /** EscapeForLikeQuery: null stays null; otherwise every '_', '%' and '['
      is rewritten as EscapedChar says, all other characters kept in order. */
  function EscapeForLikeQuery(searchTerm: Option<string>): (r: Option<string>)
    ensures r.None? <==> searchTerm.None?
    ensures searchTerm.Some? ==> r.value == EscapeEachChar(searchTerm.value)
  {
    match searchTerm
    case None => None
    case Some(s) => ReplaceChainPerChar(s); Some(ReplaceChain(s))
  }

  lemma EscapeEachCharCons(c: char, t: string)
    ensures EscapeEachChar([c] + t) == EscapedChar(c) + EscapeEachChar(t)
  {
    assert ([c] + t)[1..] == t;
  }

  /** What EscapeForLikeQuery makes of the two wildcards, character by character. */
  lemma EscapeForLikeQueryExample()
    ensures EscapeEachChar("%_") == "[[]%][[]_]"
  {
    EscapeEachCharCons('_', []);
    assert "_" == ['_'] + [];
    EscapeEachCharCons('%', "_");
    assert "%_" == ['%'] + "_";
  }

  /** string.IsNullOrEmpty. */
  predicate IsNullOrEmpty(s: Option<string>) {
    s.None? || s.value == []
  }

  /** FormatValueForBeginsWithQuery: "" for null or empty input, never a bare
      wildcard; otherwise the escaped term with a trailing '%'. */
  function FormatValueForBeginsWithQuery(searchTerm: Option<string>): (r: string)
    ensures r == [] <==> IsNullOrEmpty(searchTerm)
    ensures !IsNullOrEmpty(searchTerm) ==> r == EscapeEachChar(searchTerm.value) + "%"
  {
    if !IsNullOrEmpty(searchTerm) then EscapeForLikeQuery(searchTerm).value + "%" else ""
  }

  /** FormatValueForEndsWithQuery: as above with a leading '%'. */
  function FormatValueForEndsWithQuery(searchTerm: Option<string>): (r: string)
    ensures r == [] <==> IsNullOrEmpty(searchTerm)
    ensures !IsNullOrEmpty(searchTerm) ==> r == "%" + EscapeEachChar(searchTerm.value)
  {
    if !IsNullOrEmpty(searchTerm) then "%" + EscapeForLikeQuery(searchTerm).value else ""
  }

  /** FormatValueForContainsTextQuery: as above with '%' on both sides. */
  function FormatValueForContainsTextQuery(searchTerm: Option<string>): (r: string)
    ensures r == [] <==> IsNullOrEmpty(searchTerm)
    ensures !IsNullOrEmpty(searchTerm) ==> r == "%" + EscapeEachChar(searchTerm.value) + "%"
  {
    if !IsNullOrEmpty(searchTerm) then "%" + EscapeForLikeQuery(searchTerm).value + "%" else ""
  }

  /** A non-empty term never escapes to nothing, so no formatter yields a bare '%'. */
  lemma {:induction false} EscapeEachCharNonEmpty(s: string)
    requires s != []
    ensures |EscapeEachChar(s)| >= |s|
  {
    if |s| > 1 {
      EscapeEachCharNonEmpty(s[1..]);
    }
  }

  /** An escaped term never starts with a bare '%': a '%' of the term comes
      out behind a bracket. */
  lemma EscapedHeadIsNotWildcard(s: string)
    requires s != []
    ensures EscapeEachChar(s)[0] != '%'
  {
    assert EscapeEachChar(s) == EscapedChar(s[0]) + EscapeEachChar(s[1..]);
    assert EscapeEachChar(s)[0] == EscapedChar(s[0])[0];
  }

  lemma FormattedTermIsNeverBareWildcard(searchTerm: Option<string>)
    ensures FormatValueForBeginsWithQuery(searchTerm) != "%" && FormatValueForBeginsWithQuery(searchTerm) != "%%"
    ensures FormatValueForEndsWithQuery(searchTerm) != "%" && FormatValueForEndsWithQuery(searchTerm) != "%%"
    ensures FormatValueForContainsTextQuery(searchTerm) != "%" && FormatValueForContainsTextQuery(searchTerm) != "%%"
  {
    if !IsNullOrEmpty(searchTerm) {
      var e := EscapeEachChar(searchTerm.value);
      EscapeEachCharNonEmpty(searchTerm.value);
      EscapedHeadIsNotWildcard(searchTerm.value);
      assert (e + "%")[0] == e[0];
      assert ("%" + e)[1] == e[0];
    }
  }

  /* ---------------------------------------------------------------------
     The helper object
     --------------------------------------------------------------------- */

  /** new QueryHelper<TEntity>(alias, schemaIndex): the table name comes from
      the entity; a schema index other than 0 or 1 throws. */
  method NewQueryHelper(entity: EntityType, alias: Option<string>, schemaIndex: int) returns (r: Result<QueryHelper>)
    requires WellFormed(entity)
    ensures r.Failure? <==> schemaIndex < 0 || 1 < schemaIndex
    ensures r.Failure? ==> r.error == IndexOutOfRange(SchemaIndexMessage)
    ensures r.Success? ==> fresh(r.value) && r.value.Valid() && r.value.Fresh()
    ensures r.Success? ==> r.value.entity == entity && r.value.schemaIndex == schemaIndex
    ensures r.Success? ==> r.value.TableName == NormalizeTableName(DefaultTableName(entity))
    ensures r.Success? ==> r.value.TableAlias == (if alias.Some? then alias.value else "")
  {
    if schemaIndex < 0 || schemaIndex > 1 {
      return Failure(IndexOutOfRange(SchemaIndexMessage));
    }
    var h := new QueryHelper(entity, DefaultTableName(entity), alias, schemaIndex);
    return Success(h);
  }

  /** new QueryHelper<TEntity>(tableName, alias, schemaIndex): the caller
      names the table; a null name counts as the empty one. */
  method NewQueryHelperForTable(entity: EntityType, tableName: Option<string>, alias: Option<string>, schemaIndex: int)
    returns (r: Result<QueryHelper>)
    requires WellFormed(entity)
    ensures r.Failure? <==> schemaIndex < 0 || 1 < schemaIndex
    ensures r.Failure? ==> r.error == IndexOutOfRange(SchemaIndexMessage)
    ensures r.Success? ==> fresh(r.value) && r.value.Valid() && r.value.Fresh()
    ensures r.Success? ==> r.value.entity == entity && r.value.schemaIndex == schemaIndex
    ensures r.Success? ==> r.value.TableName == NormalizeTableName(if tableName.Some? then tableName.value else "")
    ensures r.Success? ==> r.value.TableAlias == (if alias.Some? then alias.value else "")
  {
    if schemaIndex < 0 || schemaIndex > 1 {
      return Failure(IndexOutOfRange(SchemaIndexMessage));
    }
    var h := new QueryHelper(entity, if tableName.Some? then tableName.value else "", alias, schemaIndex);
    return Success(h);
  }

  class QueryHelper {
    const entity: EntityType
    const schemaIndex: int
    /** The alias, or "" when none was given. */
    const TableAlias: string
    const TableName: string
    /** _Table: the table reference with its schema slot. */
    const table: string

    /** _DatabaseColumns: None until first read, then the shared list. */
    var databaseColumns: Option<seq<Field>>
    /** _PrimaryKey and SearchedForPrimaryKey. */
    var primaryKey: Option<Field>
    var searchedForPrimaryKey: bool

    /** Every exclusion SelectAllExcept has been given so far. */
    ghost var excluded: seq<Option<string>>
    /** The exclusions that had been applied when the primary key was resolved. */
    ghost var excludedAtKeySearch: seq<Option<string>>

    ghost predicate Valid()
      reads this
    {
      && WellFormed(entity)
      && 0 <= schemaIndex <= 1
      && table == TableReference(TableName, schemaIndex)
      && (databaseColumns.None? ==> excluded == [] && !searchedForPrimaryKey)
      && (databaseColumns.Some? ==> databaseColumns.value == Without(DatabaseColumnsOf(entity.fields), excluded))
      && (searchedForPrimaryKey ==>
            primaryKey == ResolvePrimaryKey(Without(DatabaseColumnsOf(entity.fields), excludedAtKeySearch)))
      && (!searchedForPrimaryKey ==> primaryKey.None?)
    }

    /** Nothing has been read or removed yet. */
    ghost predicate Fresh()
      reads this
    {
      databaseColumns.None? && !searchedForPrimaryKey
    }

    constructor (entity: EntityType, tableName: string, alias: Option<string>, schemaIndex: int)
      requires WellFormed(entity) && 0 <= schemaIndex <= 1
      ensures Valid() && Fresh()
      ensures this.entity == entity && this.schemaIndex == schemaIndex
      ensures TableAlias == (if alias.Some? then alias.value else "")
      ensures TableName == NormalizeTableName(tableName)
    {
      this.entity := entity;
      this.schemaIndex := schemaIndex;
      TableAlias := if alias.Some? then alias.value else "";
      TableName := NormalizeTableName(tableName);
      table := TableReference(NormalizeTableName(tableName), schemaIndex);
      databaseColumns := None;
      primaryKey := None;
      searchedForPrimaryKey := false;
      excluded := [];
      excludedAtKeySearch := [];
    }

    predicate HasAlias() {
      !IsNullOrWhiteSpace(TableAlias)
    }

    /** Table(includeAlias): the table reference, followed by " alias" only
      when the alias is asked for and is not blank. */
    function Table(includeAlias: bool := true): (r: string)
      ensures r == table || r == table + " " + TableAlias
      ensures r == table + " " + TableAlias <==> includeAlias && HasAlias()
    {
      if includeAlias && HasAlias() then table + " " + TableAlias else table
    }

    /** The table text spelled out: the schema slot of this helper's index,
      the normalized table name in brackets, and the alias when asked for
      and not blank. */
    lemma TableText(includeAlias: bool)
      requires Valid()
      ensures Table(includeAlias)
        == "[{" + (if schemaIndex == 0 then "0" else "1") + "}].[" + TableName + "]"
           + (if includeAlias && HasAlias() then " " + TableAlias else "")
    {
    }

    /** StarSelect: "[alias].*", or "*" when the alias is blank. */
    function StarSelect(): (r: string)
      ensures r == "*" <==> !HasAlias()
      ensures HasAlias() ==> r == "[" + TableAlias + "].*"
    {
      if HasAlias() then "[" + TableAlias + "].*" else "*"
    }

    /** GetDatabaseColumnProperty: the property itself, or ArgumentException
      when it is not a database column. */
    function GetDatabaseColumnProperty(p: Field): (r: Result<Field>)
      ensures r.Success? <==> IsDatabaseColumn(p)
      ensures r.Success? ==> r.value == p
      ensures r.Failure? ==> r.error == Argument(NotColumnMessage)
    {
      if IsDatabaseColumn(p) then Success(p) else Failure(Argument(NotColumnMessage))
    }

    /** The text Column(p) gives for a database column. */
    function ColumnText(p: Field): string
    {
      if HasAlias() then "[" + TableAlias + "]." + ToColumnString(p) else ToColumnString(p)
    }

    /** Column(p): "[alias].[Name]", or "[Name]" when the alias is blank. */
    function Column(p: Field): (r: Result<string>)
      ensures r.Success? <==> IsDatabaseColumn(p)
      ensures r.Failure? ==> r.error == Argument(NotColumnMessage)
      ensures r.Success? && !HasAlias() ==> r.value == ToColumnString(p)
      ensures r.Success? && HasAlias() ==> r.value == "[" + TableAlias + "]." + ToColumnString(p)
    {
      match GetDatabaseColumnProperty(p)
      case Failure(e) => Failure(e)
      case Success(q) => Success(ColumnText(q))
    }

    /** Parameter(p): "@Name" whatever the alias; never qualified. */
    function Parameter(p: Field): (r: Result<string>)
      ensures r.Success? <==> IsDatabaseColumn(p)
      ensures r.Failure? ==> r.error == Argument(NotColumnMessage)
      ensures r.Success? ==> r.value == ToParameterString(p)
    {
      match GetDatabaseColumnProperty(p)
      case Failure(e) => Failure(e)
      case Success(q) => Success(ToParameterString(q))
    }

    /** CompareColumnToParameter(op, p): "<column> <op> <parameter>". The
      column is rendered first, so a non-column fails before an undeclared
      operator does. */
    function CompareColumnToParameter(op: SqlOperator, p: Field): (r: Result<string>)
      ensures r.Success? <==> IsDatabaseColumn(p) && !op.Undeclared?
      ensures !IsDatabaseColumn(p) ==> r == Failure(Argument(NotColumnMessage))
      ensures IsDatabaseColumn(p) && op.Undeclared? ==> r == Failure(NotSupported("op"))
      ensures r.Success? ==> r.value == ColumnText(p) + " " + ToOperator(op).value + " " + ToParameterString(p)
    {
      match Column(p)
      case Failure(e) => Failure(e)
      case Success(c) =>
        match ToOperator(op)
        case Failure(e) => Failure(e)
        case Success(o) =>
          match Parameter(p)
          case Failure(e) => Failure(e)
          case Success(q) => Success(c + " " + o + " " + q)
    }

    /* The comparison shortcuts: each fails, with ArgumentException, exactly
       on a property that is not a database column; ComparisonShortcuts
       spells out the text of the others. */

    function ColumnEqualsParameter(p: Field): (r: Result<string>)
      ensures r.Success? <==> IsDatabaseColumn(p)
      ensures r.Failure? ==> r.error == Argument(NotColumnMessage)
    {
      CompareColumnToParameter(Equal, p)
    }

    function ColumnNotEqualsParameter(p: Field): (r: Result<string>)
      ensures r.Success? <==> IsDatabaseColumn(p)
      ensures r.Failure? ==> r.error == Argument(NotColumnMessage)
    {
      CompareColumnToParameter(NotEqual, p)
    }

    function ColumnGreaterThanParameter(p: Field): (r: Result<string>)
      ensures r.Success? <==> IsDatabaseColumn(p)
      ensures r.Failure? ==> r.error == Argument(NotColumnMessage)
    {
      CompareColumnToParameter(GreaterThan, p)
    }

    function ColumnGreaterOrEqualsParameter(p: Field): (r: Result<string>)
      ensures r.Success? <==> IsDatabaseColumn(p)
      ensures r.Failure? ==> r.error == Argument(NotColumnMessage)
    {
      CompareColumnToParameter(GreaterThanOrEqual, p)
    }

    function ColumnLessOrEqualsParameter(p: Field): (r: Result<string>)
      ensures r.Success? <==> IsDatabaseColumn(p)
      ensures r.Failure? ==> r.error == Argument(NotColumnMessage)
    {
      CompareColumnToParameter(LessThanOrEqual, p)
    }

    function ColumnLessThanParameter(p: Field): (r: Result<string>)
      ensures r.Success? <==> IsDatabaseColumn(p)
      ensures r.Failure? ==> r.error == Argument(NotColumnMessage)
    {
      CompareColumnToParameter(LessThan, p)
    }

    function ColumnInParameter(p: Field): (r: Result<string>)
      ensures r.Success? <==> IsDatabaseColumn(p)
      ensures r.Failure? ==> r.error == Argument(NotColumnMessage)
    {
      CompareColumnToParameter(In, p)
    }

    function ColumnLikeParameter(p: Field): (r: Result<string>)
      ensures r.Success? <==> IsDatabaseColumn(p)
      ensures r.Failure? ==> r.error == Argument(NotColumnMessage)
    {
      CompareColumnToParameter(Like, p)
    }

    /** Each comparison shortcut puts its own operator between the column and
      the parameter of the same property, and fails only on a non-column. */
    lemma ComparisonShortcuts(p: Field)
      requires IsDatabaseColumn(p)
      ensures ColumnEqualsParameter(p) == Success(ColumnText(p) + " = " + ToParameterString(p))
      ensures ColumnNotEqualsParameter(p) == Success(ColumnText(p) + " <> " + ToParameterString(p))
      ensures ColumnGreaterThanParameter(p) == Success(ColumnText(p) + " > " + ToParameterString(p))
      ensures ColumnGreaterOrEqualsParameter(p) == Success(ColumnText(p) + " >= " + ToParameterString(p))
      ensures ColumnLessOrEqualsParameter(p) == Success(ColumnText(p) + " <= " + ToParameterString(p))
      ensures ColumnLessThanParameter(p) == Success(ColumnText(p) + " < " + ToParameterString(p))
      ensures ColumnInParameter(p) == Success(ColumnText(p) + " IN " + ToParameterString(p))
      ensures ColumnLikeParameter(p) == Success(ColumnText(p) + " LIKE " + ToParameterString(p))
    {
      var c, q := ColumnText(p), ToParameterString(p);
      assert c + " " + "=" + " " + q == c + " = " + q;
      assert c + " " + "<>" + " " + q == c + " <> " + q;
      assert c + " " + ">" + " " + q == c + " > " + q;
      assert c + " " + ">=" + " " + q == c + " >= " + q;
      assert c + " " + "<=" + " " + q == c + " <= " + q;
      assert c + " " + "<" + " " + q == c + " < " + q;
      assert c + " " + "IN" + " " + q == c + " IN " + q;
      assert c + " " + "LIKE" + " " + q == c + " LIKE " + q;
    }

    /** ScriptJoin: "<kind> JOIN <joined table>", a line break, then
      "ON <this column> <op> <joined column>". Rendering goes left to right,
      so the first failing piece decides the exception. */
    function ScriptJoin(joinType: string, joinTable: QueryHelper, column: Field, joinColumn: Field, op: SqlOperator := Equal)
      : (r: Result<string>)
      ensures r.Success? <==> IsDatabaseColumn(column) && !op.Undeclared? && IsDatabaseColumn(joinColumn)
      ensures !IsDatabaseColumn(column) ==> r == Failure(Argument(NotColumnMessage))
      ensures IsDatabaseColumn(column) && op.Undeclared? ==> r == Failure(NotSupported("op"))
      ensures IsDatabaseColumn(column) && !op.Undeclared? && !IsDatabaseColumn(joinColumn) ==>
        r == Failure(Argument(NotColumnMessage))
      ensures r.Success? ==>
        r.value == joinType + " JOIN " + joinTable.Table() + JoinBreak
                   + "ON " + ColumnText(column) + " " + ToOperator(op).value + " " + joinTable.ColumnText(joinColumn)
    {
      match Column(column)
      case Failure(e) => Failure(e)
      case Success(c) =>
        match ToOperator(op)
        case Failure(e) => Failure(e)
        case Success(o) =>
          match joinTable.Column(joinColumn)
          case Failure(e) => Failure(e)
          case Success(j) => Success(joinType + " JOIN " + joinTable.Table() + JoinBreak + "ON " + c + " " + o + " " + j)
    }

    /** InnerJoin: the join text with kind "INNER"; the comparison is Equal unless given. */
    function InnerJoin(joinTable: QueryHelper, column: Field, joinColumn: Field, op: SqlOperator := Equal)
      : (r: Result<string>)
      ensures r.Success? <==> IsDatabaseColumn(column) && !op.Undeclared? && IsDatabaseColumn(joinColumn)
      ensures r.Success? ==>
        r.value == "INNER" + " JOIN " + joinTable.Table() + JoinBreak
                   + "ON " + ColumnText(column) + " " + ToOperator(op).value + " " + joinTable.ColumnText(joinColumn)
    {
      ScriptJoin("INNER", joinTable, column, joinColumn, op)
    }

    /** LeftOuterJoin: the join text with kind "LEFT OUTER". */
    function LeftOuterJoin(joinTable: QueryHelper, column: Field, joinColumn: Field, op: SqlOperator := Equal)
      : (r: Result<string>)
      ensures r.Success? <==> IsDatabaseColumn(column) && !op.Undeclared? && IsDatabaseColumn(joinColumn)
      ensures r.Success? ==>
        r.value == "LEFT OUTER" + " JOIN " + joinTable.Table() + JoinBreak
                   + "ON " + ColumnText(column) + " " + ToOperator(op).value + " " + joinTable.ColumnText(joinColumn)
    {
      ScriptJoin("LEFT OUTER", joinTable, column, joinColumn, op)
    }

    /** The DatabaseColumns getter: built from the entity's properties on the
      first read and shared, as the same list, by every later read. */
    method DatabaseColumns() returns (cols: seq<Field>)
      requires Valid()
      modifies this`databaseColumns
      ensures Valid()
      ensures old(databaseColumns).None? ==> databaseColumns == Some(DatabaseColumnsOf(entity.fields))
      ensures old(databaseColumns).Some? ==> databaseColumns == old(databaseColumns)
      ensures databaseColumns == Some(cols)
    {
      if databaseColumns.None? {
        WithoutNothing(DatabaseColumnsOf(entity.fields));
        databaseColumns := Some(DatabaseColumnsOf(entity.fields));
      }
      cols := databaseColumns.value;
    }

    /** The PrimaryKey getter: resolved once, from the column list as it
      stands at the first read, and never recomputed afterwards. */
    method PrimaryKey() returns (pk: Option<Field>)
      requires Valid()
      modifies this`databaseColumns, this`primaryKey, this`searchedForPrimaryKey, this`excludedAtKeySearch
      ensures Valid() && searchedForPrimaryKey && pk == primaryKey && databaseColumns.Some?
      ensures old(searchedForPrimaryKey) ==> pk == old(primaryKey) && databaseColumns == old(databaseColumns)
      ensures !old(searchedForPrimaryKey) ==> pk == ResolvePrimaryKey(databaseColumns.value)
      ensures old(databaseColumns).Some? ==> databaseColumns == old(databaseColumns)
      ensures old(databaseColumns).None? ==> databaseColumns == Some(DatabaseColumnsOf(entity.fields))
    {
      if !searchedForPrimaryKey {
        var cols := DatabaseColumns();
        var k := FirstIndexWhere(cols, IsKey);
        if k.Some? {
          primaryKey := Some(cols[k.value]);
        } else {
          var n := FirstIndexWhere(cols, IsNamedId);
          primaryKey := if n.Some? then Some(cols[n.value]) else None;
        }
        excludedAtKeySearch := excluded;
        searchedForPrimaryKey := true;
      }
      pk := primaryKey;
    }

    /** The Column() text of each column, in order. */
    function ColumnTexts(cols: seq<Field>): (r: seq<string>)
      ensures |r| == |cols| && forall i :: 0 <= i < |cols| ==> r[i] == ColumnText(cols[i])
    {
      if cols == [] then [] else [ColumnText(cols[0])] + ColumnTexts(cols[1..])
    }

    /** SelectAllExcept: every cached column whose name an exclusion carries is
      removed from the shared list itself; the survivors are listed, in order,
      separated by ", ". */
    method SelectAllExcept(excludeColumns: seq<Option<string>>) returns (r: string)
      requires Valid()
      modifies this`databaseColumns, this`excluded
      ensures Valid()
      ensures var before := if old(databaseColumns).Some? then old(databaseColumns).value
                            else DatabaseColumnsOf(entity.fields);
              databaseColumns == Some(Without(before, excludeColumns))
      ensures excluded == old(excluded) + excludeColumns
      ensures r == Join(", ", ColumnTexts(databaseColumns.value))
    {
      var columns := DatabaseColumns();
      ghost var exc := excluded;
      ghost var base := DatabaseColumnsOf(entity.fields);
      assert columns == Without(base, exc) && UniqueNames(columns);
      var remove := CollectRemovals(columns, excludeColumns);
      KeepIsWithout(columns, remove, excludeColumns);
      columns := RemoveEach(columns, remove);
      WithoutAccumulates(base, exc, excludeColumns);
      databaseColumns := Some(columns);
      excluded := exc + excludeColumns;
      r := Join(", ", ColumnTexts(columns));
    }
  }

  /** PrimaryKey, then SelectAllExcept, then PrimaryKey again: the key read
      first is returned again, even when the removal took its column out of
      the list the key was resolved from. */
  method KeyOutlivesRemoval(h: QueryHelper, excludeColumns: seq<Option<string>>)
    returns (before: Option<Field>, after: Option<Field>)
    requires h.Valid() && h.Fresh()
    modifies h
    ensures h.Valid()
    ensures before == after == ResolvePrimaryKey(DatabaseColumnsOf(h.entity.fields))
    ensures h.databaseColumns == Some(Without(DatabaseColumnsOf(h.entity.fields), excludeColumns))
    ensures after.Some? && Some(after.value.name) in excludeColumns ==> after.value !in h.databaseColumns.value
  {
    before := h.PrimaryKey();
    var _ := h.SelectAllExcept(excludeColumns);
    after := h.PrimaryKey();
  }

  /** SelectAllExcept's first loop: for each exclusion, the first column of
      that name, if there is one, is put on the removal list. */
  method CollectRemovals(columns: seq<Field>, excludeColumns: seq<Option<string>>) returns (remove: seq<Field>)
    requires UniqueNames(columns)
    ensures forall f :: f in columns ==> (f in remove <==> Some(f.name) in excludeColumns)
    ensures forall f :: f in remove ==> f in columns
  {
    remove := [];
    var i := 0;
    while i < |excludeColumns|
      invariant 0 <= i <= |excludeColumns|
      invariant forall f :: f in columns ==> (f in remove <==> Some(f.name) in excludeColumns[..i])
      invariant forall f :: f in remove ==> f in columns
    {
      var name := excludeColumns[i];
      var k := FirstIndexWhere(columns, (p: Field) => Some(p.name) == name);
      var found := if k.Some? then Some(columns[k.value]) else None;
      CollectStep(columns, remove, excludeColumns[..i], name, found);
      if k.Some? {
        remove := remove + [columns[k.value]];
      }
      assert excludeColumns[..i + 1] == excludeColumns[..i] + [name];
      i := i + 1;
    }
    assert excludeColumns[..i] == excludeColumns;
  }

  /** SelectAllExcept's second loop: List<T>.Remove of each collected column,
      in turn; on a list without repeats this keeps exactly the others. */
  method RemoveEach(columns: seq<Field>, remove: seq<Field>) returns (r: seq<Field>)
    requires UniqueNames(columns)
    ensures r == Keep(columns, remove)
  {
    r := columns;
    KeepNothing(columns);
    assert remove[..0] == [];
    var j := 0;
    while j < |remove|
      invariant 0 <= j <= |remove|
      invariant r == Keep(columns, remove[..j])
    {
      KeepStep(columns, remove, j);
      r := RemoveFirst(r, remove[j]);
      j := j + 1;
    }
    assert remove[..j] == remove;
  }

  /** One pass of SelectAllExcept's first loop: the column found for a name,
      if any, is the only column carrying that name. */
  lemma CollectStep(cols: seq<Field>, remove: seq<Field>, seen: seq<Option<string>>, name: Option<string>, found: Option<Field>)
    requires UniqueNames(cols)
    requires forall f :: f in cols ==> (f in remove <==> Some(f.name) in seen)
    requires found.Some? ==> found.value in cols && Some(found.value.name) == name
    requires found.None? ==> forall f :: f in cols ==> Some(f.name) != name
    ensures var remove' := if found.Some? then remove + [found.value] else remove;
            forall f :: f in cols ==> (f in remove' <==> Some(f.name) in seen + [name])
  {
    var remove' := if found.Some? then remove + [found.value] else remove;
    forall f | f in cols
      ensures f in remove' <==> Some(f.name) in seen + [name]
    {
      assert Some(f.name) in seen + [name] <==> Some(f.name) in seen || Some(f.name) == name;
      if found.Some? && Some(f.name) == name {
        SameNameSameField(cols, f, found.value);
      }
    }
  }

  lemma SameNameSameField(cols: seq<Field>, f: Field, g: Field)
    requires UniqueNames(cols) && f in cols && g in cols && f.name == g.name
    ensures f == g
  {
    var a :| 0 <= a < |cols| && cols[a] == f;
    var b :| 0 <= b < |cols| && cols[b] == g;
    assert !(a < b) && !(b < a);
  }

  /** Removals persist: whatever SelectAllExcept drops is gone from every
      later column list, and what it keeps is still there, in order. */
  lemma SelectAllExceptShrinks(cols: seq<Field>, names: seq<Option<string>>, f: Field)
    ensures IsSubsequence(Without(cols, names), cols)
    ensures f in Without(cols, names) <==> f in cols && Some(f.name) !in names
    ensures |Without(cols, names)| <= |cols|
  {
    SubsequenceIsShorter(Without(cols, names), cols);
  }

  lemma {:induction false} SubsequenceIsShorter(a: seq<Field>, b: seq<Field>)
    requires IsSubsequence(a, b)
    ensures |a| <= |b|
    decreases |b|
  {
    if a != [] {
      if a[0] == b[0] && IsSubsequence(a[1..], b[1..]) {
        SubsequenceIsShorter(a[1..], b[1..]);
      } else {
        SubsequenceIsShorter(a, b[1..]);
      }
    }
  }
}
