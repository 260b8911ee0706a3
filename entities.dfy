/** DbEntityPropertyInfoExtensions: what the engine reads off one property of
    an entity class. Reflection is replaced by a declared descriptor per
    property: its name and the Dapper.Contrib attributes on it. */
module Entities {
  import opened Wrappers

  /** One property of an entity class.
      write:       the [Write(bool)] attribute's value, None when the attribute is absent;
      key:         a [Key] attribute (a key the database generates);
      explicitKey: an [ExplicitKey] attribute (a key the caller assigns). */
  datatype Field = Field(name: string, write: Option<bool>, key: bool, explicitKey: bool)

  /** An entity class: its type name (Type.Name, which two classes in
      different namespaces, or two constructions of one generic class, can
      share), its full name (Type.FullName, which tells them apart), the name
      given by a [Table] attribute (None when there is no attribute or it
      names nothing), and its public properties in declaration order. */
  datatype EntityType = EntityType(name: string, fullName: string, tableAttribute: Option<string>, fields: seq<Field>)

  /** A CLR class cannot declare two properties of the same name. */
  predicate UniqueNames(fields: seq<Field>) {
    forall i, j :: 0 <= i < j < |fields| ==> fields[i].name != fields[j].name
  }

  predicate WellFormed(e: EntityType) {
    UniqueNames(e.fields)
  }

  /** The bracket-quoted column identifier: the property name between '[' and ']'. */
  function ToColumnString(p: Field): (r: string)
    ensures |r| == |p.name| + 2 && r[0] == '[' && r[|r| - 1] == ']'
    ensures r[1..|r| - 1] == p.name
  {
    "[" + p.name + "]"
  }

  /** The bound-parameter token: the property name after '@'. */
  function ToParameterString(p: Field): (r: string)
    ensures |r| == |p.name| + 1 && r[0] == '@' && r[1..] == p.name
  {
    "@" + p.name
  }

  predicate IsExplicitKey(p: Field) {
    p.explicitKey
  }

  predicate IsGeneratedKey(p: Field) {
    p.key
  }

  predicate IsKey(p: Field) {
    IsGeneratedKey(p) || IsExplicitKey(p)
  }

  /** A column unless a [Write(false)] attribute says otherwise. */
  predicate IsDatabaseColumn(p: Field) {
    match p.write
    case None => true
    case Some(w) => w
  }

  /** A column string and a parameter string of the same property carry the
      same name, and different names give different identifiers. */
  lemma ColumnAndParameterShareName(p: Field, q: Field)
    ensures ToColumnString(p)[1..|ToColumnString(p)| - 1] == ToParameterString(p)[1..] == p.name
    ensures ToColumnString(p) == ToColumnString(q) <==> p.name == q.name
    ensures ToParameterString(p) == ToParameterString(q) <==> p.name == q.name
  {
    if ToColumnString(p) == ToColumnString(q) {
      assert p.name == ToColumnString(p)[1..|ToColumnString(p)| - 1];
    }
    if ToParameterString(p) == ToParameterString(q) {
      assert p.name == ToParameterString(p)[1..];
    }
  }

  /** IsKey is exactly "generated key or explicit key"; IsGeneratedKey reads
      only the [Key] flag, IsExplicitKey only the [ExplicitKey] flag, and
      IsDatabaseColumn only the [Write] attribute. */
  lemma KeyAndColumnClassification(p: Field, key: bool, explicitKey: bool, write: Option<bool>)
    ensures IsKey(p) <==> IsGeneratedKey(p) || IsExplicitKey(p)
    ensures IsGeneratedKey(p.(explicitKey := explicitKey, write := write)) == IsGeneratedKey(p)
    ensures IsExplicitKey(p.(key := key, write := write)) == IsExplicitKey(p)
    ensures IsDatabaseColumn(p.(key := key, explicitKey := explicitKey)) == IsDatabaseColumn(p)
    ensures IsDatabaseColumn(p) <==> p.write == None || p.write == Some(true)
  {
  }
}
