/** SqlQueryCacheService: one query template per "TypeName.key", built on
    first use, stored trimmed, and filled with the schema on every call. */
module QueryCache {
  import opened Wrappers
  import opened Text

  const IndexOutOfRangeMessage :=
    "Index (zero based) must be greater than or equal to zero and less than the size of the argument list."
  const BadFormatMessage := "Input string was not in a correct format."

  /* ---------------------------------------------------------------------
     string.Format
     --------------------------------------------------------------------- */

  predicate IsDigit(c: char) {
    '0' <= c <= '9'
  }

  /** No brace anywhere: string.Format copies such text unchanged. */
  predicate NoBraces(s: string) {
    forall i :: 0 <= i < |s| ==> s[i] != '{' && s[i] != '}'
  }

  /** Text put in front of a successful result; a failure passes through. */
  function Prepend(s: string, r: Result<string>): (q: Result<string>)
    ensures q.Success? <==> r.Success?
    ensures q.Failure? ==> q == r
  {
    match r
    case Success(v) => Success(s + v)
    case Failure(e) => Failure(e)
  }

  /** string.StringFormat(template, args), read left to right: "{{" and "}}" stand
      for one brace, "{d}" for the argument at index d, any other brace is
      malformed, and a slot past the end of args is an error. */
  function StringFormat(t: string, args: seq<string>): (r: Result<string>)
    ensures r.Failure? ==> r.error.Format?
    decreases |t|
  {
    if t == [] then Success([])
    else if t[0] == '{' then
      if |t| >= 2 && t[1] == '{' then Prepend("{", StringFormat(t[2..], args))
      else if |t| >= 3 && IsDigit(t[1]) && t[2] == '}' then
        var d := t[1] as int - '0' as int;
        if d < |args| then Prepend(args[d], StringFormat(t[3..], args))
        else Failure(Error.Format(IndexOutOfRangeMessage))
      else Failure(Error.Format(BadFormatMessage))
    else if t[0] == '}' then
      if |t| >= 2 && t[1] == '}' then Prepend("}", StringFormat(t[2..], args))
      else Failure(Error.Format(BadFormatMessage))
    else Prepend([t[0]], StringFormat(t[1..], args))
  }

  lemma PrependPrepend(x: string, y: string, r: Result<string>)
    ensures Prepend(x, Prepend(y, r)) == Prepend(x + y, r)
  {
    if r.Success? {
      assert x + (y + r.value) == (x + y) + r.value;
    }
  }

  lemma PrependNothing(r: Result<string>)
    ensures Prepend([], r) == r
  {
    if r.Success? {
      assert [] + r.value == r.value;
    }
  }

  /** Brace-free text in front of the rest is copied and the rest formatted. */
  lemma {:induction false} FormatPlainPrefix(a: string, b: string, args: seq<string>)
    requires NoBraces(a)
    ensures StringFormat(a + b, args) == Prepend(a, StringFormat(b, args))
  {
    if a != [] {
      assert (a + b)[0] == a[0] && a[0] != '{' && a[0] != '}';
      assert (a + b)[1..] == a[1..] + b;
      assert NoBraces(a[1..]);
      FormatPlainPrefix(a[1..], b, args);
      PrependPrepend([a[0]], a[1..], StringFormat(b, args));
      assert [a[0]] + a[1..] == a;
    } else {
      assert a + b == b;
      PrependNothing(StringFormat(b, args));
    }
  }

  /** Text without braces formats to itself, whatever the arguments. */
  lemma FormatPlain(a: string, args: seq<string>)
    requires NoBraces(a)
    ensures StringFormat(a, args) == Success(a)
  {
    FormatPlainPrefix(a, [], args);
    assert a + [] == a;
  }

  /** A slot "{d}" in front of the rest becomes argument d. */
  lemma FormatSlot(d: nat, b: string, args: seq<string>)
    requires d < 10
    ensures var slot := "{" + [('0' as int + d) as char] + "}";
      StringFormat(slot + b, args)
      == if d < |args| then Prepend(args[d], StringFormat(b, args)) else Failure(Error.Format(IndexOutOfRangeMessage))
  {
    var slot := "{" + [('0' as int + d) as char] + "}";
    assert (slot + b)[0] == '{' && (slot + b)[1] == ('0' as int + d) as char && (slot + b)[2] == '}';
    assert (slot + b)[3..] == b;
  }

  /** Formatting is compositional: a template that formats on its own can be
      put in front of any other. */
  lemma {:induction false} FormatAppend(a: string, b: string, args: seq<string>)
    requires StringFormat(a, args).Success?
    ensures StringFormat(a + b, args) == Prepend(StringFormat(a, args).value, StringFormat(b, args))
    decreases |a|
  {
    var fb := StringFormat(b, args);
    if a != [] {
      var ab := a + b;
      assert ab[0] == a[0];
      if a[0] == '{' {
        if |a| >= 2 && a[1] == '{' {
          assert ab[1] == '{' && ab[2..] == a[2..] + b;
          FormatAppend(a[2..], b, args);
          PrependPrepend("{", StringFormat(a[2..], args).value, fb);
        } else {
          assert |a| >= 3 && IsDigit(a[1]) && a[2] == '}';
          var d := a[1] as int - '0' as int;
          assert ab[1] == a[1] && ab[2] == a[2] && ab[3..] == a[3..] + b;
          FormatAppend(a[3..], b, args);
          PrependPrepend(args[d], StringFormat(a[3..], args).value, fb);
        }
      } else if a[0] == '}' {
        assert |a| >= 2 && a[1] == '}';
        assert ab[1] == '}' && ab[2..] == a[2..] + b;
        FormatAppend(a[2..], b, args);
        PrependPrepend("}", StringFormat(a[2..], args).value, fb);
      } else {
        assert ab[1..] == a[1..] + b;
        FormatAppend(a[1..], b, args);
        PrependPrepend([a[0]], StringFormat(a[1..], args).value, fb);
      }
    } else {
      assert a + b == b;
      PrependNothing(fb);
    }
  }

  /** Text with every brace doubled: string.Format's escape. */
  function EscapeBraces(s: string): (r: string)
    ensures |r| >= |s|
  {
    if s == [] then []
    else (if s[0] == '{' || s[0] == '}' then [s[0], s[0]] else [s[0]]) + EscapeBraces(s[1..])
  }

  /** Formatting undoes the escape: any text, escaped, formats back to itself. */
  lemma {:induction false} FormatEscapedBraces(s: string, args: seq<string>)
    ensures StringFormat(EscapeBraces(s), args) == Success(s)
  {
    if s != [] {
      var rest := EscapeBraces(s[1..]);
      FormatEscapedBraces(s[1..], args);
      var e := EscapeBraces(s);
      if s[0] == '{' || s[0] == '}' {
        assert e == [s[0], s[0]] + rest;
        assert e[0] == s[0] && e[1] == s[0] && e[2..] == rest;
        assert [s[0]] + s[1..] == s;
      } else {
        assert e == [s[0]] + rest;
        assert e[0] == s[0] && e[1..] == rest;
        assert [s[0]] + s[1..] == s;
      }
    }
  }

  /** A template with the one slot {0} between brace-free texts: the slot
      becomes the schema and nothing else changes. */
  lemma FormatOneSlot(head: string, tail: string, schema: string)
    requires NoBraces(head) && NoBraces(tail)
    ensures StringFormat(head + "{0}" + tail, [schema]) == Success(head + schema + tail)
  {
    assert head + "{0}" + tail == head + ("{0}" + tail);
    FormatPlainPrefix(head, "{0}" + tail, [schema]);
    FormatSlot(0, tail, [schema]);
    assert "{" + [('0' as int + 0) as char] + "}" == "{0}";
    FormatPlain(tail, [schema]);
    assert head + (schema + tail) == head + schema + tail;
  }

  /** Brace-freedom survives concatenation. */
  lemma NoBracesAppend(a: string, b: string)
    ensures NoBraces(a + b) <==> NoBraces(a) && NoBraces(b)
  {
    if NoBraces(a + b) {
      forall i | 0 <= i < |a| ensures a[i] != '{' && a[i] != '}' {
        assert a[i] == (a + b)[i];
      }
      forall i | 0 <= i < |b| ensures b[i] != '{' && b[i] != '}' {
        assert b[i] == (a + b)[|a| + i];
      }
    }
    if NoBraces(a) && NoBraces(b) {
      forall i | 0 <= i < |a + b| ensures (a + b)[i] != '{' && (a + b)[i] != '}' {
        if i < |a| {
          assert (a + b)[i] == a[i];
        } else {
          assert (a + b)[i] == b[i - |a|];
        }
      }
    }
  }

  /* ---------------------------------------------------------------------
     The template store
     --------------------------------------------------------------------- */

  /** The dictionary key: the entity type's Name, a dot, and the operation key. */
  function TemplateKey(typeName: string, key: string): (k: string)
    ensures |k| == |typeName| + 1 + |key|
    ensures k[..|typeName|] == typeName && k[|typeName|] == '.' && k[|typeName| + 1..] == key
  {
    typeName + "." + key
  }

  predicate NoDot(s: string) {
    forall i :: 0 <= i < |s| ==> s[i] != '.'
  }

  /** The first dot of a key ends the type name. */
  lemma KeyTypeNameHasNoDot(t: string, k: string)
    requires NoDot(t)
    ensures forall i :: 0 <= i < |t| ==> TemplateKey(t, k)[i] != '.'
  {
    var key := TemplateKey(t, k);
    forall i | 0 <= i < |t| ensures key[i] != '.' {
      assert key[i] == key[..|t|][i] == t[i];
    }
  }

  /** A CLR type name has no dot, so the key tells type and operation apart. */
  lemma TemplateKeyInjective(t1: string, k1: string, t2: string, k2: string)
    requires NoDot(t1) && NoDot(t2)
    ensures TemplateKey(t1, k1) == TemplateKey(t2, k2) <==> t1 == t2 && k1 == k2
  {
    var a, b := TemplateKey(t1, k1), TemplateKey(t2, k2);
    if a == b {
      KeyTypeNameHasNoDot(t1, k1);
      KeyTypeNameHasNoDot(t2, k2);
      assert |t1| == |t2|;
      assert t1 == a[..|t1|] && t2 == b[..|t2|];
      assert k1 == a[|t1| + 1..] && k2 == b[|t2| + 1..];
    }
  }

  /** Dots may appear in the type part (a namespace-qualified name has them);
      a key without dots still tells type and operation apart, since the
      last dot of the whole key ends the type part. */
  lemma TemplateKeyInjectiveByKey(t1: string, k1: string, t2: string, k2: string)
    requires NoDot(k1) && NoDot(k2)
    ensures TemplateKey(t1, k1) == TemplateKey(t2, k2) <==> t1 == t2 && k1 == k2
  {
    var a, b := TemplateKey(t1, k1), TemplateKey(t2, k2);
    forall i | |t1| < i < |a| ensures a[i] != '.' {
      assert a[i] == k1[i - |t1| - 1];
    }
    forall i | |t2| < i < |b| ensures b[i] != '.' {
      assert b[i] == k2[i - |t2| - 1];
    }
    if a == b {
      assert |t1| == |t2|;
      assert t1 == a[..|t1|] && t2 == b[..|t2|];
      assert k1 == a[|t1| + 1..] && k2 == b[|t2| + 1..];
    }
  }

  class SqlQueryCacheService {
    /** queryTemplates: only ever added to. */
    var queryTemplates: map<string, string>
    /** The keys whose builder has run, in order. */
    ghost var builds: seq<string>

    /** Every stored template is trimmed and came from a builder run. */
    ghost predicate Valid()
      reads this
    {
      && (forall k :: k in queryTemplates ==> IsTrimmed(queryTemplates[k]))
      && (forall k :: k in queryTemplates ==> k in builds)
    }

    constructor ()
      ensures Valid() && queryTemplates == map[] && builds == []
    {
      queryTemplates := map[];
      builds := [];
    }

    /** GetTemplate: a stored template is returned as it is and the builder
      does not run; otherwise the builder runs once, and its result, trimmed,
      is stored and returned. A builder that fails stores nothing. */
    method GetTemplate(typeName: string, key: string, queryBuilder: () -> Result<string>) returns (r: Result<string>)
      requires Valid()
      modifies this
      ensures Valid()
      ensures var k := TemplateKey(typeName, key);
        if k in old(queryTemplates) then
          r == Success(old(queryTemplates)[k]) && queryTemplates == old(queryTemplates) && builds == old(builds)
        else
          builds == old(builds) + [k]
          && match queryBuilder()
             case Success(q) => r == Success(Trim(q)) && queryTemplates == old(queryTemplates)[k := Trim(q)]
             case Failure(e) => r == Failure(e) && queryTemplates == old(queryTemplates)
      ensures forall k :: k in old(queryTemplates) ==> k in queryTemplates && queryTemplates[k] == old(queryTemplates)[k]
    {
      var templateKey := TemplateKey(typeName, key);
      var templateCached := templateKey in queryTemplates;
      if templateCached {
        r := Success(queryTemplates[templateKey]);
      } else {
        var built := queryBuilder();
        builds := builds + [templateKey];
        match built
        case Success(q) =>
          var template := Trim(q);
          queryTemplates := queryTemplates[templateKey := template];
          r := Success(template);
        case Failure(e) =>
          r := Failure(e);
      }
    }

    /** GetQuery(entityType, key, schema, builder): the template with slot
      {0} filled by schema. */
    method GetQuery(typeName: string, key: string, schema: string, queryBuilder: () -> Result<string>)
      returns (r: Result<string>)
      requires Valid()
      modifies this
      ensures Valid()
      ensures var k := TemplateKey(typeName, key);
        if k in old(queryTemplates) then
          r == StringFormat(old(queryTemplates)[k], [schema]) && queryTemplates == old(queryTemplates)
        else
          match queryBuilder()
          case Success(q) => r == StringFormat(Trim(q), [schema]) && queryTemplates == old(queryTemplates)[k := Trim(q)]
          case Failure(e) => r == Failure(e) && queryTemplates == old(queryTemplates)
      ensures var k := TemplateKey(typeName, key);
        builds == if k in old(queryTemplates) then old(builds) else old(builds) + [k]
    {
      var template := GetTemplate(typeName, key, queryBuilder);
      match template
      case Success(t) => r := StringFormat(t, [schema]);
      case Failure(e) => r := Failure(e);
    }

    /** The two-schema overload: slots {0} and {1} filled by schema and schema2,
      from the same store as the one-schema overload. */
    method GetQueryTwoSchemas(typeName: string, key: string, schema: string, schema2: string,
                              queryBuilder: () -> Result<string>)
      returns (r: Result<string>)
      requires Valid()
      modifies this
      ensures Valid()
      ensures var k := TemplateKey(typeName, key);
        if k in old(queryTemplates) then
          r == StringFormat(old(queryTemplates)[k], [schema, schema2]) && queryTemplates == old(queryTemplates)
        else
          match queryBuilder()
          case Success(q) => r == StringFormat(Trim(q), [schema, schema2]) && queryTemplates == old(queryTemplates)[k := Trim(q)]
          case Failure(e) => r == Failure(e) && queryTemplates == old(queryTemplates)
      ensures var k := TemplateKey(typeName, key);
        builds == if k in old(queryTemplates) then old(builds) else old(builds) + [k]
    {
      var template := GetTemplate(typeName, key, queryBuilder);
      match template
      case Success(t) => r := StringFormat(t, [schema, schema2]);
      case Failure(e) => r := Failure(e);
    }
  }

  /** Two calls for one key share one template: the second call, under
      other schemas and with another builder, gets what the first call's
      builder produced, and its own builder never runs. A failed build
      stores nothing, so the second builder then decides. */
  method SharedTemplate(svc: SqlQueryCacheService, typeName: string, key: string,
                        schema: string, queryBuilder: () -> Result<string>,
                        other: string, otherSchema2: string, otherBuilder: () -> Result<string>)
    returns (first: Result<string>, second: Result<string>)
    requires svc.Valid() && TemplateKey(typeName, key) !in svc.queryTemplates
    modifies svc
    ensures svc.Valid()
    ensures queryBuilder().Success? ==>
      var t := Trim(queryBuilder().value);
      && first == StringFormat(t, [schema]) && second == StringFormat(t, [other, otherSchema2])
      && svc.builds == old(svc.builds) + [TemplateKey(typeName, key)]
      && svc.queryTemplates == old(svc.queryTemplates)[TemplateKey(typeName, key) := t]
    ensures queryBuilder().Failure? ==>
      && first == Failure(queryBuilder().error)
      && svc.builds == old(svc.builds) + [TemplateKey(typeName, key), TemplateKey(typeName, key)]
      && (otherBuilder().Failure? ==> second == Failure(otherBuilder().error))
      && (otherBuilder().Success? ==> second == StringFormat(Trim(otherBuilder().value), [other, otherSchema2]))
  {
    first := svc.GetQuery(typeName, key, schema, queryBuilder);
    second := svc.GetQueryTwoSchemas(typeName, key, other, otherSchema2, otherBuilder);
  }
}
